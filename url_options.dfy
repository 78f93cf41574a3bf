/**
 * The URL options manager: the query string taken from the page address,
 * the choice of the event file, its type and its loader from the query
 * parameters or the configured defaults, the order in which the event and
 * the saved state are fetched with their loading-manager items, and the
 * widgets hidden by the `hide*` parameters.
 */
module UrlOptions {
  import opened Wrappers

  // ---------------------------------------------------------------------------
  // The query string
  // ---------------------------------------------------------------------------

  /** `s.lastIndexOf(c)`: the last position holding `c`, or -1. */
  function LastIndexOf(s: string, c: char): (r: int)
    ensures -1 <= r < |s|
    ensures r >= 0 ==> s[r] == c && forall k :: r < k < |s| ==> s[k] != c
    ensures r == -1 ==> forall k :: 0 <= k < |s| ==> s[k] != c
    decreases |s|
  {
    if s == [] then -1
    else if s[|s| - 1] == c then |s| - 1
    else LastIndexOf(s[..|s| - 1], c)
  }

  /** `s.substr(start)`: a negative start counts back from the end, stopping at 0. */
  function Substr(s: string, start: int): string {
    var from := if start < 0 then (if |s| + start < 0 then 0 else |s| + start) else start;
    if from >= |s| then [] else s[from..]
  }

  /** The string the constructor hands to `URLSearchParams`. */
  function QuerySuffix(href: string): string {
    Substr(href, LastIndexOf(href, '?'))
  }

  /**
   * With a '?' in the address the query string is the tail from its last
   * '?' on, the rest of the address containing no other '?'. Without one
   * `lastIndexOf` gives -1 and `substr(-1)` the address's last character.
   */
  lemma QuerySuffixCases(href: string)
    ensures '?' in href ==>
      exists i :: 0 <= i < |href| && href[i] == '?' && QuerySuffix(href) == href[i..]
        && forall k :: i < k < |href| ==> href[k] != '?'
    ensures '?' !in href ==> QuerySuffix(href) == if href == [] then [] else [href[|href| - 1]]
  {
    var i := LastIndexOf(href, '?');
    if '?' in href {
      var j :| 0 <= j < |href| && href[j] == '?';
      assert i >= 0;
    }
  }

  // ---------------------------------------------------------------------------
  // Parameters
  // ---------------------------------------------------------------------------

  /** The parsed query parameters: the value of each parameter present. */
  type Params = map<string, string>

  /** `urlOptions.get(key)`: null for a missing parameter. */
  function Get(params: Params, key: string): Option<string> {
    if key in params then Some(params[key]) else None
  }

  /** JavaScript truthiness of a string that may be null or undefined. */
  predicate Truthy(v: Option<string>) {
    v.Some? && v.value != ""
  }

  /** `toLowerCase` on ASCII letters. */
  function LowerChar(c: char): char {
    if 'A' <= c <= 'Z' then (c as int + 32) as char else c
  }

  /**
   * Lowercasing keeps the length, leaves no upper-case letter, moves each
   * upper-case letter 32 code points up and leaves every other character.
   */
  function Lower(s: string): (r: string)
    ensures |r| == |s|
    ensures forall k :: 0 <= k < |r| ==> !('A' <= r[k] <= 'Z')
    ensures forall k :: 0 <= k < |s| && !('A' <= s[k] <= 'Z') ==> r[k] == s[k]
    ensures forall k :: 0 <= k < |s| && 'A' <= s[k] <= 'Z' ==> r[k] as int == s[k] as int + 32
  {
    seq(|s|, k requires 0 <= k < |s| => LowerChar(s[k]))
  }

  /** Lowercasing twice is lowercasing once. */
  lemma LowerIdempotent(s: string)
    ensures Lower(Lower(s)) == Lower(s)
  {
    var r := Lower(s);
    assert forall k :: 0 <= k < |r| ==> Lower(r)[k] == r[k];
  }

  /** The event file and type settled on (either may be undefined). */
  datatype EventSource = EventSource(file: Option<string>, eventType: Option<string>)

  /**
   * The event applyEventOptions settles on: both values from the URL, the
   * type lowercased, when `file` and `type` are both non-empty there;
   * otherwise both defaults as given.
   */
  function ChooseEvent(params: Params, defaultEventPath: Option<string>, defaultEventType: Option<string>): EventSource {
    if !Truthy(Get(params, "file")) || !Truthy(Get(params, "type")) then
      EventSource(defaultEventPath, defaultEventType)
    else
      EventSource(Get(params, "file"), Some(Lower(Get(params, "type").value)))
  }

  /** The values never mix: the file and the type come from the same place. */
  lemma ChooseEventNeverMixes(params: Params, defaultEventPath: Option<string>, defaultEventType: Option<string>)
    ensures var c := ChooseEvent(params, defaultEventPath, defaultEventType);
      || (c.file == defaultEventPath && c.eventType == defaultEventType
          && (!Truthy(Get(params, "file")) || !Truthy(Get(params, "type"))))
      || (c.file == Some(params["file"]) && "type" in params && c.eventType == Some(Lower(params["type"]))
          && Truthy(Get(params, "file")) && Truthy(Get(params, "type")))
  {
  }

  // ---------------------------------------------------------------------------
  // Loaders
  // ---------------------------------------------------------------------------

  datatype Loader = JiveXMLLoader | PhoenixLoader

  /** How the response body is read. */
  datatype Body = Text | Json

  /** Only the exact type "jivexml" picks the JiveXML loader. */
  function LoaderFor(eventType: string): Loader {
    if eventType == "jivexml" then JiveXMLLoader else PhoenixLoader
  }

  /** The JiveXML loader reads text, the Phoenix loader JSON. */
  function BodyFor(eventType: string): Body {
    if eventType == "jivexml" then Text else Json
  }

  /**
   * A type from the URL picks JiveXML whatever its case; a default type is
   * used as given, so "JiveXML" as a default picks the Phoenix loader.
   */
  lemma LoaderChoice(params: Params, defaultEventPath: Option<string>)
    ensures var c := ChooseEvent(params, defaultEventPath, Some("JiveXML"));
      !Truthy(Get(params, "file")) ==> LoaderFor(c.eventType.value) == PhoenixLoader
    ensures var p := params["file" := "event.xml"]["type" := "JiveXML"];
      var c := ChooseEvent(p, defaultEventPath, Some("JiveXML"));
      LoaderFor(c.eventType.value) == JiveXMLLoader && BodyFor(c.eventType.value) == Text
  {
    var p := params["file" := "event.xml"]["type" := "JiveXML"];
    assert Lower("JiveXML") == "jivexml";
  }

  // ---------------------------------------------------------------------------
  // applyEventOptions as a trace of effects
  // ---------------------------------------------------------------------------

  /**
   * How the event fetch ended: the event built, the fetch (or reading its
   * body) rejected before any loader was chosen, or the chosen loader
   * failing on the body after it was set in the configuration.
   */
  datatype EventOutcome = Loaded | FetchFailed | BuildFailed

  /** How the state fetch ended; a failure has no handler of its own. */
  datatype ConfigOutcome = StateApplied | StateFailed

  /** The loading-manager items applyEventOptions uses: 'url_event' and 'url_config'. */
  datatype ItemId = UrlEvent | UrlConfig

  /** What applyEventOptions makes happen, in order. */
  datatype Effect =
    | AddLoadableItem(id: ItemId)
    | ItemLoaded(id: ItemId)
    | Fetch(url: string, body: Body)
    | LoaderSet(loader: Loader)        // configuration.eventDataLoader assigned
    | EventBuilt                       // the event display fed the loader's event data
    | LogError(message: string)        // the info logger's entry for a failed event load
    | StateLoaded                      // the saved state fetched from `config` is applied

  const FileNotFound := "Could not find the file specified in URL."

  /** loadConfig, up to the moment its fetch is in flight. */
  function ConfigStart(params: Params): seq<Effect> {
    if Truthy(Get(params, "config")) then [AddLoadableItem(UrlConfig), Fetch(params["config"], Json)] else []
  }

  /** loadConfig, once its fetch has settled. */
  function ConfigEnd(params: Params, configOutcome: ConfigOutcome): seq<Effect> {
    if Truthy(Get(params, "config")) then
      (if configOutcome == StateApplied then [StateLoaded] else []) + [ItemLoaded(UrlConfig)]
    else []
  }

  /** The event fetch settling: the loader set and the event built, or the error logged. */
  function EventSettled(eventType: string, eventOutcome: EventOutcome): seq<Effect> {
    match eventOutcome
    case Loaded => [LoaderSet(LoaderFor(eventType)), EventBuilt]
    case FetchFailed => [LogError(FileNotFound)]
    case BuildFailed => [LoaderSet(LoaderFor(eventType)), LogError(FileNotFound)]
  }

  /** Whether applyEventOptions fetches an event at all. */
  predicate LoadsEvent(c: EventSource) {
    Truthy(c.file) && Truthy(c.eventType)
  }

  /**
   * Every effect of applyEventOptions once all fetches have settled. With
   * an event to load: its item and fetch, how it settled, then (in
   * `finally`) loadConfig's start and the event item's release, and last
   * the state fetch settling. Without one: loadConfig alone. Without
   * `fetch` in the browser: nothing.
   */
  function EventOptionsTrace(params: Params, fetchAvailable: bool,
                             defaultEventPath: Option<string>, defaultEventType: Option<string>,
                             eventOutcome: EventOutcome, configOutcome: ConfigOutcome): seq<Effect>
  {
    if !fetchAvailable then []
    else
      var c := ChooseEvent(params, defaultEventPath, defaultEventType);
      if LoadsEvent(c) then EventThenConfig(params, c.file.value, c.eventType.value, eventOutcome, configOutcome)
      else ConfigStart(params) + ConfigEnd(params, configOutcome)
  }

  /** The event fetch, and in its `finally` loadConfig and the event item's release. */
  function EventThenConfig(params: Params, file: string, eventType: string,
                           eventOutcome: EventOutcome, configOutcome: ConfigOutcome): seq<Effect>
  {
    [AddLoadableItem(UrlEvent), Fetch(file, BodyFor(eventType))]
    + EventSettled(eventType, eventOutcome)
    + ConfigStart(params) + [ItemLoaded(UrlEvent)] + ConfigEnd(params, configOutcome)
  }

  /** The loader the configuration holds afterwards. */
  function LoaderAfter(current: Option<Loader>, params: Params, fetchAvailable: bool,
                       defaultEventPath: Option<string>, defaultEventType: Option<string>,
                       eventOutcome: EventOutcome): Option<Loader>
  {
    var c := ChooseEvent(params, defaultEventPath, defaultEventType);
    if fetchAvailable && LoadsEvent(c) && eventOutcome != FetchFailed then Some(LoaderFor(c.eventType.value))
    else current
  }

  /** The number of times `e` occurs in `t`. */
  function Count(t: seq<Effect>, e: Effect): nat
    decreases |t|
  {
    if t == [] then 0 else (if t[0] == e then 1 else 0) + Count(t[1..], e)
  }

  lemma {:induction false} CountAppend(a: seq<Effect>, b: seq<Effect>, e: Effect)
    ensures Count(a + b, e) == Count(a, e) + Count(b, e)
    decreases |a|
  {
    if a == [] {
      assert a + b == b;
    } else {
      assert (a + b)[1..] == a[1..] + b;
      CountAppend(a[1..], b, e);
    }
  }

  /** Without `fetch` nothing happens and the loader stays. */
  lemma NoFetchNoEffect(params: Params, defaultEventPath: Option<string>, defaultEventType: Option<string>,
                        eventOutcome: EventOutcome, configOutcome: ConfigOutcome, current: Option<Loader>)
    ensures EventOptionsTrace(params, false, defaultEventPath, defaultEventType, eventOutcome, configOutcome) == []
    ensures LoaderAfter(current, params, false, defaultEventPath, defaultEventType, eventOutcome) == current
  {
  }

  /** The loader set is the one the type names and is set exactly when the fetch succeeded. */
  lemma LoaderSetOnlyOnFetch(params: Params, defaultEventPath: Option<string>, defaultEventType: Option<string>,
                             eventOutcome: EventOutcome, configOutcome: ConfigOutcome, loader: Loader)
    ensures var c := ChooseEvent(params, defaultEventPath, defaultEventType);
      var t := EventOptionsTrace(params, true, defaultEventPath, defaultEventType, eventOutcome, configOutcome);
      LoaderSet(loader) in t <==> LoadsEvent(c) && eventOutcome != FetchFailed && loader == LoaderFor(c.eventType.value)
    ensures var c := ChooseEvent(params, defaultEventPath, defaultEventType);
      var t := EventOptionsTrace(params, true, defaultEventPath, defaultEventType, eventOutcome, configOutcome);
      LogError(FileNotFound) in t <==> LoadsEvent(c) && eventOutcome != Loaded
  {
    var c := ChooseEvent(params, defaultEventPath, defaultEventType);
    var cs := ConfigStart(params);
    var ce := ConfigEnd(params, configOutcome);
    if LoadsEvent(c) {
      var head := [AddLoadableItem(UrlEvent), Fetch(c.file.value, BodyFor(c.eventType.value))];
      var s := EventSettled(c.eventType.value, eventOutcome);
      assert EventOptionsTrace(params, true, defaultEventPath, defaultEventType, eventOutcome, configOutcome)
          == EventThenConfig(params, c.file.value, c.eventType.value, eventOutcome, configOutcome);
      assert EventThenConfig(params, c.file.value, c.eventType.value, eventOutcome, configOutcome)
          == head + s + (cs + [ItemLoaded(UrlEvent)] + ce);
    }
  }

  lemma CountOne(x: Effect, e: Effect)
    ensures Count([x], e) == if x == e then 1 else 0
  {
    assert [x][1..] == [];
  }

  lemma CountTwo(x: Effect, y: Effect, e: Effect)
    ensures Count([x, y], e) == (if x == e then 1 else 0) + (if y == e then 1 else 0)
  {
    assert [x, y][1..] == [y];
    CountOne(y, e);
  }

  /** The state part of the trace adds and releases 'url_config' once each when `config` is given. */
  lemma ConfigCounts(params: Params, configOutcome: ConfigOutcome, id: ItemId)
    ensures var n := if Truthy(Get(params, "config")) && id == UrlConfig then 1 else 0;
      && Count(ConfigStart(params), AddLoadableItem(id)) == n
      && Count(ConfigStart(params), ItemLoaded(id)) == 0
      && Count(ConfigEnd(params, configOutcome), AddLoadableItem(id)) == 0
      && Count(ConfigEnd(params, configOutcome), ItemLoaded(id)) == n
  {
    if Truthy(Get(params, "config")) {
      CountTwo(AddLoadableItem(UrlConfig), Fetch(params["config"], Json), AddLoadableItem(id));
      CountTwo(AddLoadableItem(UrlConfig), Fetch(params["config"], Json), ItemLoaded(id));
      if configOutcome == StateApplied {
        CountTwo(StateLoaded, ItemLoaded(UrlConfig), AddLoadableItem(id));
        CountTwo(StateLoaded, ItemLoaded(UrlConfig), ItemLoaded(id));
      } else {
        CountOne(ItemLoaded(UrlConfig), AddLoadableItem(id));
        CountOne(ItemLoaded(UrlConfig), ItemLoaded(id));
      }
    }
  }

  /** The event fetch and its settling add 'url_event' and release nothing. */
  lemma EventCounts(file: string, eventType: string, eventOutcome: EventOutcome, id: ItemId)
    ensures var t := [AddLoadableItem(UrlEvent), Fetch(file, BodyFor(eventType))] + EventSettled(eventType, eventOutcome);
      && Count(t, AddLoadableItem(id)) == (if id == UrlEvent then 1 else 0)
      && Count(t, ItemLoaded(id)) == 0
  {
    var head := [AddLoadableItem(UrlEvent), Fetch(file, BodyFor(eventType))];
    var s := EventSettled(eventType, eventOutcome);
    CountTwo(AddLoadableItem(UrlEvent), Fetch(file, BodyFor(eventType)), AddLoadableItem(id));
    CountTwo(AddLoadableItem(UrlEvent), Fetch(file, BodyFor(eventType)), ItemLoaded(id));
    if eventOutcome == FetchFailed {
      CountOne(LogError(FileNotFound), AddLoadableItem(id));
      CountOne(LogError(FileNotFound), ItemLoaded(id));
    } else {
      CountTwo(s[0], s[1], AddLoadableItem(id));
      CountTwo(s[0], s[1], ItemLoaded(id));
      assert s == [s[0], s[1]];
    }
    CountAppend(head, s, AddLoadableItem(id));
    CountAppend(head, s, ItemLoaded(id));
  }

  lemma CountAppend4(a: seq<Effect>, b: seq<Effect>, c: seq<Effect>, d: seq<Effect>, e: Effect)
    ensures Count(a + b + c + d, e) == Count(a, e) + Count(b, e) + Count(c, e) + Count(d, e)
  {
    CountAppend(a, b, e);
    CountAppend(a + b, c, e);
    CountAppend(a + b + c, d, e);
  }

  /** The items of a trace are balanced: each added at most once and released after it. */
  predicate Balanced(t: seq<Effect>, id: ItemId) {
    && Count(t, AddLoadableItem(id)) == Count(t, ItemLoaded(id)) <= 1
    && (Count(t, AddLoadableItem(id)) == 1 ==>
          exists i, j :: 0 <= i < j < |t| && t[i] == AddLoadableItem(id) && t[j] == ItemLoaded(id))
  }

  lemma EventThenConfigBalanced(params: Params, file: string, eventType: string,
                                eventOutcome: EventOutcome, configOutcome: ConfigOutcome, id: ItemId)
    ensures Balanced(EventThenConfig(params, file, eventType, eventOutcome, configOutcome), id)
  {
    var t := EventThenConfig(params, file, eventType, eventOutcome, configOutcome);
    var cs := ConfigStart(params);
    var ce := ConfigEnd(params, configOutcome);
    var ev := [AddLoadableItem(UrlEvent), Fetch(file, BodyFor(eventType))] + EventSettled(eventType, eventOutcome);
    assert t == ev + cs + [ItemLoaded(UrlEvent)] + ce;
    ConfigCounts(params, configOutcome, id);
    EventCounts(file, eventType, eventOutcome, id);
    CountOne(ItemLoaded(UrlEvent), AddLoadableItem(id));
    CountOne(ItemLoaded(UrlEvent), ItemLoaded(id));
    CountAppend4(ev, cs, [ItemLoaded(UrlEvent)], ce, AddLoadableItem(id));
    CountAppend4(ev, cs, [ItemLoaded(UrlEvent)], ce, ItemLoaded(id));
    if id == UrlEvent {
      assert t[0] == AddLoadableItem(id) && t[|ev + cs|] == ItemLoaded(id);
    } else if Truthy(Get(params, "config")) {
      assert t[|ev|] == AddLoadableItem(id) && t[|t| - 1] == ItemLoaded(id);
    }
  }

  lemma ConfigOnlyBalanced(params: Params, configOutcome: ConfigOutcome, id: ItemId)
    ensures Balanced(ConfigStart(params) + ConfigEnd(params, configOutcome), id)
  {
    var cs := ConfigStart(params);
    var ce := ConfigEnd(params, configOutcome);
    var t := cs + ce;
    ConfigCounts(params, configOutcome, id);
    CountAppend(cs, ce, AddLoadableItem(id));
    CountAppend(cs, ce, ItemLoaded(id));
    if id == UrlConfig && Truthy(Get(params, "config")) {
      assert t[0] == AddLoadableItem(id) && t[|t| - 1] == ItemLoaded(id);
    }
  }

  /**
   * Every loading-manager item added is released exactly once, after it
   * was added, however the fetches end; an item is never added twice and
   * never released without being added.
   */
  lemma ItemsBalanced(params: Params, fetchAvailable: bool,
                      defaultEventPath: Option<string>, defaultEventType: Option<string>,
                      eventOutcome: EventOutcome, configOutcome: ConfigOutcome, id: ItemId)
    ensures Balanced(EventOptionsTrace(params, fetchAvailable, defaultEventPath, defaultEventType, eventOutcome, configOutcome), id)
  {
    var c := ChooseEvent(params, defaultEventPath, defaultEventType);
    if fetchAvailable {
      if LoadsEvent(c) {
        EventThenConfigBalanced(params, c.file.value, c.eventType.value, eventOutcome, configOutcome, id);
      } else {
        ConfigOnlyBalanced(params, configOutcome, id);
      }
    }
  }

  /**
   * With an event to load, the saved state is fetched only after the event
   * fetch has settled (the last effect of its settling comes first, be it
   * the event built or the error logged) and before the event item is
   * released; with no event to load, the state is fetched straight away and
   * no event item is ever added.
   */
  lemma ConfigAfterEvent(params: Params, defaultEventPath: Option<string>, defaultEventType: Option<string>,
                         eventOutcome: EventOutcome, configOutcome: ConfigOutcome)
    requires Truthy(Get(params, "config"))
    ensures var c := ChooseEvent(params, defaultEventPath, defaultEventType);
      var t := EventOptionsTrace(params, true, defaultEventPath, defaultEventType, eventOutcome, configOutcome);
      LoadsEvent(c) ==>
        exists i, j, k :: 0 <= i < j < k < |t| - 1
          && t[i] == (if eventOutcome == Loaded then EventBuilt else LogError(FileNotFound))
          && t[j] == AddLoadableItem(UrlConfig) && t[j + 1] == Fetch(params["config"], Json)
          && t[k] == ItemLoaded(UrlEvent)
    ensures var c := ChooseEvent(params, defaultEventPath, defaultEventType);
      var t := EventOptionsTrace(params, true, defaultEventPath, defaultEventType, eventOutcome, configOutcome);
      !LoadsEvent(c) ==>
        |t| >= 2 && t[0] == AddLoadableItem(UrlConfig) && t[1] == Fetch(params["config"], Json)
        && AddLoadableItem(UrlEvent) !in t && EventBuilt !in t && LogError(FileNotFound) !in t
  {
    var c := ChooseEvent(params, defaultEventPath, defaultEventType);
    var t := EventOptionsTrace(params, true, defaultEventPath, defaultEventType, eventOutcome, configOutcome);
    if LoadsEvent(c) {
      var s := EventSettled(c.eventType.value, eventOutcome);
      var m := 2 + |s|;
      assert t[m - 1] == s[|s| - 1];
      assert t[m] == AddLoadableItem(UrlConfig) && t[m + 1] == Fetch(params["config"], Json);
      assert t[m + 2] == ItemLoaded(UrlEvent);
    }
  }

  // ---------------------------------------------------------------------------
  // Hidden widgets
  // ---------------------------------------------------------------------------

  /** The six overlay widgets, by element id: mainLogo, uiMenu, experimentInfo, phoenixMenu, statsElement, gui. */
  datatype Widget = MainLogo | UiMenu | ExperimentInfo | PhoenixMenu | StatsElement | Gui

  const AllWidgets: seq<Widget> := [MainLogo, UiMenu, ExperimentInfo, PhoenixMenu, StatsElement, Gui]

  /** `hideWidgetsOptions` in `Object.entries` order: each option and the widgets it hides. */
  const HideOptions: seq<(string, seq<Widget>)> := [
    ("hideWidgets", AllWidgets),
    ("hideUIMenu", [UiMenu]),
    ("hideExperimentInfo", [ExperimentInfo]),
    ("hidePhoenixMenu", [PhoenixMenu]),
    ("hideStats", [StatsElement]),
    ("hideDatGUIMenu", [Gui])
  ]

  /** The widgets of a list, as a set. */
  function ElementsOf(ws: seq<Widget>): (r: set<Widget>)
    ensures forall w :: w in r <==> w in ws
    decreases |ws|
  {
    if ws == [] then {} else ElementsOf(ws[..|ws| - 1]) + {ws[|ws| - 1]}
  }

  /** What the options among `entries` set to exactly "true" ask to hide. */
  function HiddenBy(params: Params, entries: seq<(string, seq<Widget>)>): set<Widget>
    decreases |entries|
  {
    if entries == [] then {}
    else
      var n := |entries| - 1;
      HiddenBy(params, entries[..n])
      + (if Get(params, entries[n].0) == Some("true") then ElementsOf(entries[n].1) else {})
  }

  function HiddenIds(params: Params): set<Widget> {
    HiddenBy(params, HideOptions)
  }

  /** A widget is hidden exactly when some option set to "true" lists it. */
  lemma {:induction false} HiddenByUnion(params: Params, entries: seq<(string, seq<Widget>)>, w: Widget)
    ensures w in HiddenBy(params, entries) <==>
      exists k :: 0 <= k < |entries| && Get(params, entries[k].0) == Some("true") && w in entries[k].1
    decreases |entries|
  {
    if entries != [] {
      var n := |entries| - 1;
      HiddenByUnion(params, entries[..n], w);
      if w in HiddenBy(params, entries) && w !in HiddenBy(params, entries[..n]) {
        assert Get(params, entries[n].0) == Some("true") && w in entries[n].1;
      }
      if exists k :: 0 <= k < |entries| && Get(params, entries[k].0) == Some("true") && w in entries[k].1 {
        var k :| 0 <= k < |entries| && Get(params, entries[k].0) == Some("true") && w in entries[k].1;
        if k < n {
          assert entries[..n][k] == entries[k];
        }
      }
    }
  }

  /** The single-widget option naming `w`; the main logo has none of its own. */
  function OwnOption(w: Widget): Option<string> {
    match w
    case MainLogo => None
    case UiMenu => Some("hideUIMenu")
    case ExperimentInfo => Some("hideExperimentInfo")
    case PhoenixMenu => Some("hidePhoenixMenu")
    case StatsElement => Some("hideStats")
    case Gui => Some("hideDatGUIMenu")
  }

  /**
   * A widget is hidden exactly when hideWidgets is "true" or its own option
   * is "true": hideWidgets hides all six, each other option exactly its
   * one widget, and any other value ("True", "1", "") hides nothing.
   */
  lemma HiddenIdsExactly(params: Params, w: Widget)
    ensures w in HiddenIds(params) <==>
      Get(params, "hideWidgets") == Some("true") || (OwnOption(w).Some? && Get(params, OwnOption(w).value) == Some("true"))
  {
    var e := HideOptions;
    HiddenByUnion(params, e, w);
    if Get(params, "hideWidgets") == Some("true") {
      assert w in e[0].1;
    }
    if OwnOption(w).Some? && Get(params, OwnOption(w).value) == Some("true") {
      var k := match w case MainLogo => 0 case UiMenu => 1 case ExperimentInfo => 2
                       case PhoenixMenu => 3 case StatsElement => 4 case Gui => 5;
      assert e[k].0 == OwnOption(w).value && w in e[k].1;
    }
    if w in HiddenIds(params) {
      var k :| 0 <= k < |e| && Get(params, e[k].0) == Some("true") && w in e[k].1;
      if k == 1 { assert w == UiMenu; }
      if k == 2 { assert w == ExperimentInfo; }
      if k == 3 { assert w == PhoenixMenu; }
      if k == 4 { assert w == StatsElement; }
      if k == 5 { assert w == Gui; }
    }
  }

  // ---------------------------------------------------------------------------
  // The class
  // ---------------------------------------------------------------------------

  /**
   * URLOptionsManager with what it reaches: the parsed query parameters,
   * the configuration's event-data loader, the effects the loading manager,
   * the info logger and the event display see, the widgets present in the
   * document and those styled `display: none`.
   */
  class URLOptionsManager {
    const query: string
    const urlOptions: Params
    var eventDataLoader: Option<Loader>
    var trace: seq<Effect>
    const elements: set<Widget>
    var hidden: set<Widget>

    /**
     * The query string is cut from the address; `parse` stands for
     * URLSearchParams, which is not part of this model.
     */
    constructor (locationHref: string, parse: string -> Params, elements: set<Widget>)
      ensures query == QuerySuffix(locationHref) && urlOptions == parse(query)
      ensures this.elements == elements && hidden == {} && trace == [] && eventDataLoader == None
    {
      var suffix := Substr(locationHref, LastIndexOf(locationHref, '?'));
      query := suffix;
      urlOptions := parse(suffix);
      this.elements := elements;
      hidden := {};
      trace := [];
      eventDataLoader := None;
    }

    /**
     * applyEventOptions, with its fetches settled: `fetchAvailable` says
     * whether the browser has `fetch`, the outcomes how the event and the
     * state fetches ended.
     */
    method ApplyEventOptions(fetchAvailable: bool, defaultEventPath: Option<string>, defaultEventType: Option<string>,
                             eventOutcome: EventOutcome, configOutcome: ConfigOutcome)
      modifies this`trace, this`eventDataLoader
      ensures trace == old(trace) + EventOptionsTrace(urlOptions, fetchAvailable, defaultEventPath, defaultEventType, eventOutcome, configOutcome)
      ensures eventDataLoader == LoaderAfter(old(eventDataLoader), urlOptions, fetchAvailable, defaultEventPath, defaultEventType, eventOutcome)
    {
      if !fetchAvailable {
        return;
      }
      var chosen := ChooseEvent(urlOptions, defaultEventPath, defaultEventType);
      var file, eventType := chosen.file, chosen.eventType;
      if Truthy(file) && Truthy(eventType) {
        LoadEventThenConfig(file.value, eventType.value, eventOutcome, configOutcome);
      } else {
        LoadConfigStart();
        LoadConfigEnd(configOutcome);
        assert trace == old(trace) + (ConfigStart(urlOptions) + ConfigEnd(urlOptions, configOutcome));
      }
    }

    /** The event fetch, and in its `finally` loadConfig and the event item's release. */
    method LoadEventThenConfig(file: string, eventType: string, eventOutcome: EventOutcome, configOutcome: ConfigOutcome)
      modifies this`trace, this`eventDataLoader
      ensures trace == old(trace) + EventThenConfig(urlOptions, file, eventType, eventOutcome, configOutcome)
      ensures eventDataLoader == if eventOutcome == FetchFailed then old(eventDataLoader) else Some(LoaderFor(eventType))
    {
      ghost var ev := [AddLoadableItem(UrlEvent), Fetch(file, BodyFor(eventType))] + EventSettled(eventType, eventOutcome);
      ghost var cs := ConfigStart(urlOptions);
      ghost var ce := ConfigEnd(urlOptions, configOutcome);
      LoadEvent(file, eventType, eventOutcome);
      LoadConfigStart();
      trace := trace + [ItemLoaded(UrlEvent)];
      LoadConfigEnd(configOutcome);
      assert trace == old(trace) + ev + cs + [ItemLoaded(UrlEvent)] + ce;
      assert old(trace) + ev + cs + [ItemLoaded(UrlEvent)] + ce == old(trace) + (ev + cs + [ItemLoaded(UrlEvent)] + ce);
    }

    /** The event fetch: its item added, the body read as text or JSON, then how it settled. */
    method LoadEvent(file: string, eventType: string, eventOutcome: EventOutcome)
      modifies this`trace, this`eventDataLoader
      ensures trace == old(trace) + [AddLoadableItem(UrlEvent), Fetch(file, BodyFor(eventType))]
                                  + EventSettled(eventType, eventOutcome)
      ensures eventDataLoader == if eventOutcome == FetchFailed then old(eventDataLoader) else Some(LoaderFor(eventType))
    {
      trace := trace + [AddLoadableItem(UrlEvent), Fetch(file, if eventType == "jivexml" then Text else Json)];
      if eventOutcome == FetchFailed {
        trace := trace + [LogError(FileNotFound)];
      } else {
        eventDataLoader := Some(if eventType == "jivexml" then JiveXMLLoader else PhoenixLoader);
        trace := trace + [LoaderSet(eventDataLoader.value)];
        if eventOutcome == Loaded {
          trace := trace + [EventBuilt];
        } else {
          trace := trace + [LogError(FileNotFound)];
        }
      }
    }

    /** loadConfig: the state item added and its fetch sent, when `config` is given. */
    method LoadConfigStart()
      modifies this`trace
      ensures trace == old(trace) + ConfigStart(urlOptions)
    {
      if Truthy(Get(urlOptions, "config")) {
        trace := trace + [AddLoadableItem(UrlConfig), Fetch(urlOptions["config"], Json)];
      }
    }

    /** loadConfig's fetch settling: the state applied on success, the item released in any case. */
    method LoadConfigEnd(configOutcome: ConfigOutcome)
      modifies this`trace
      ensures trace == old(trace) + ConfigEnd(urlOptions, configOutcome)
    {
      if Truthy(Get(urlOptions, "config")) {
        if configOutcome == StateApplied {
          trace := trace + [StateLoaded];
        }
        trace := trace + [ItemLoaded(UrlConfig)];
      }
    }

    /** applyHideWidgetsOptions: every widget present that an option set to "true" lists is hidden. */
    method ApplyHideWidgetsOptions()
      modifies this`hidden
      ensures hidden == old(hidden) + (HiddenIds(urlOptions) * elements)
    {
      var entries := HideOptions;
      for k := 0 to |entries|
        invariant hidden == old(hidden) + (HiddenBy(urlOptions, entries[..k]) * elements)
      {
        assert entries[..k + 1][..k] == entries[..k];
        var (urlOption, idsToHide) := entries[k];
        if Get(urlOptions, urlOption) == Some("true") {
          for j := 0 to |idsToHide|
            invariant hidden == old(hidden) + (HiddenBy(urlOptions, entries[..k]) * elements)
                                + (ElementsOf(idsToHide[..j]) * elements)
          {
            assert idsToHide[..j + 1][..j] == idsToHide[..j];
            if idsToHide[j] in elements {
              hidden := hidden + {idsToHide[j]};
            }
          }
          assert idsToHide[..|idsToHide|] == idsToHide;
        }
      }
      assert entries[..|entries|] == entries;
    }

    /** applyOptions: the event from the URL or the configured default, then the hidden widgets. */
    method ApplyOptions(fetchAvailable: bool, defaultEventFile: Option<EventSource>,
                        eventOutcome: EventOutcome, configOutcome: ConfigOutcome)
      modifies this`trace, this`eventDataLoader, this`hidden
      ensures var path := if defaultEventFile.Some? then defaultEventFile.value.file else None;
        var eventType := if defaultEventFile.Some? then defaultEventFile.value.eventType else None;
        && trace == old(trace) + EventOptionsTrace(urlOptions, fetchAvailable, path, eventType, eventOutcome, configOutcome)
        && eventDataLoader == LoaderAfter(old(eventDataLoader), urlOptions, fetchAvailable, path, eventType, eventOutcome)
        && hidden == old(hidden) + (HiddenIds(urlOptions) * elements)
    {
      var path := if defaultEventFile.Some? then defaultEventFile.value.file else None;
      var eventType := if defaultEventFile.Some? then defaultEventFile.value.eventType else None;
      ApplyEventOptions(fetchAvailable, path, eventType, eventOutcome, configOutcome);
      ApplyHideWidgetsOptions();
    }
  }
}
