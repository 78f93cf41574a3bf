# Phoenix event display: animation, URL options, UI state and AR session, in Dafny

This project models four pieces of the Phoenix event display that hold
decision or state logic of their own, once the browser, three.js, tween.js
and dat.GUI are abstracted away:

- **Animations** (`animations.dfy`, module `Animations`). `AnimationsManager` covers:
  - the camera fly-through, one chain of 29 camera tweens;
  - the reveal of the event data by a growing sphere: the traversal that classifies each object as Track, Jet, Hit or other, the Track draw-range reset and restore, and the sphere update that rebuilds hits from the triples it reaches and only ever shows objects;
  - the particle collision that hands over to the reveal.

  Tweens are records in a registry whose index is their identity, and a tween.js `chain` is the record's `next` link. Every closure handed to tween.js is a `Callback` value, and running it is `AnimationsManager.Invoke`. `Sphere.containsPoint` is a predicate parameter.
- **URL options** (`url_options.dfy`, module `UrlOptions`). `URLOptionsManager` covers:
  - the query string cut from the page address;
  - the choice of event file, type and loader from the query parameters or the configured defaults;
  - the effects of `applyEventOptions` as an ordered trace, with the loading-manager items, fetches, loader choice, error log and state load. How each fetch ends is an input;
  - the widgets hidden by the `hide*` parameters.
- **UI service** (`ui_service.dfy`, module `UiService`). `UIService` covers:
  - the theme kept in local storage (a map) and detected from it or from the system preference;
  - the Shift+T and Shift+digit keyboard shortcuts;
  - the dat.GUI and Phoenix menus, as maps from node id to node. Their "Event Data" folders are replaced, never duplicated;
  - the geometry folders;
  - the Min/Max cut sliders, which move exactly one bound of a `Cut` object;
  - the preset views.
- **AR session** (`ar_manager.dfy`, module `ArManager`). `ARManager` saves the scene root's x-scale, the camera's near plane and a copy of the camera's position when a session starts. It then shrinks the three scene groups and moves the camera. When the session ends it scales the groups to the saved value and restores the camera. Vectors, groups, the scene and the camera are objects, and the session's effect is also given as two functions on a value snapshot, `Started` and `Ended`.

`wrappers.dfy` holds the `Option` type the modules share.

Code and comments disagree in one place, and the model follows the code. In `src/app/services/ui.service.ts`:
- the comment names the shortcuts Shift+1 to Shift+9;
- but the guard `keyCode > 48 && keyCode < 57` admits only '1'..'8' (codes 49..56);
- so Shift+9 selects nothing.

## Model

| member | source | states |
|---|---|---|
| Animations.FlattenChunks | src/app/services/three/animations-manager.ts:321-327 | concatenating the hit triples gives the flat coordinate array back |
| Animations.ChunksLength | src/app/services/three/animations-manager.ts:321-327 | there are ceil(n/3) triples |
| Animations.ChunkAt | src/app/services/three/animations-manager.ts:321-327 | triple k is the slice [3k, min(3k+3, n)) of the array |
| Animations.ChunksShape | src/app/services/three/animations-manager.ts:321-327 | ceil(n/3) triples, triple k being the slice [3k, min(3k+3, n)) |
| Animations.OnlyLastChunkShort | src/app/services/three/animations-manager.ts:321-327 | every triple but the last has three values; the last has one to three |
| Animations.GetHitsPositions | src/app/services/three/animations-manager.ts:321-327 | the stepping loop yields ceil(n/3) slices, slice k being [3k, 3k+3) clamped to the length |
| Animations.RoleOf | src/app/services/three/animations-manager.ts:119-166 | only an object with a geometry is animated (Track by draw range, Jet by scale, anything else by the sphere) |
| Animations.ReachedMembers | src/app/services/three/animations-manager.ts:202-205 | the filter keeps exactly the triples the sphere contains, and no more triples than there were |
| Animations.ReachedAll | src/app/services/three/animations-manager.ts:202-205 | a sphere containing every triple keeps them all, in order |
| Animations.HitRebuilt | src/app/services/three/animations-manager.ts:197-212 | a Hit's update keeps exactly the reached triples; with none reached nothing changes, otherwise only that Hit's position attribute becomes their concatenation in original order |
| Animations.RevealTargetsAt | src/app/services/three/animations-manager.ts:166-186 | each sphere entry points at an object the sphere reveals and holds the position captured for it (a Hit's whole array, else its position or its bounding-sphere centre) |
| Animations.RevealRestores | src/app/services/three/animations-manager.ts:166-217 | once the sphere holds everything, the hidden objects are visible again and every Hit has all its positions back in order; Tracks and Jets keep the traversal's state |
| Animations.OnAnimationSphereUpdate | src/app/services/three/animations-manager.ts:195-218 | the forEach over the sphere entries computes the specified reveal step |
| Animations.RevealNeverHides | src/app/services/three/animations-manager.ts:195-217 | the update never hides; non-Hits change only in visibility, and only once an entry for them is inside the sphere; Hits change only in geometry, and never lose it |
| Animations.FlyThroughTweenAt | src/app/services/three/animations-manager.ts:49-86 | tween k of the fly-through goes to the start, the axis point, (0,0,500), orbit point k-2, the far point or the start again, by its place in the chain |
| Animations.RotationPositions | src/app/services/three/animations-manager.ts:59-66 | the first loop yields orbit points 1 to 24 in order |
| Animations.ChainRotation | src/app/services/three/animations-manager.ts:71-79 | the second loop makes one camera tween per orbit point, each chained to the previous one and the first hung after `rotateStart` |
| Animations.FlyThroughAssembled | src/app/services/three/animations-manager.ts:45-94 | the tweens created and linked by animateThroughEvent are exactly the 29-tween plan |
| Animations.FlyThroughForward | src/app/services/three/animations-manager.ts:88-91 | the fly-through's links point forward in the registry |
| Animations.FlyThroughChainFrom | src/app/services/three/animations-manager.ts:88-93 | from tween k on, the chain runs the remaining fly-through tweens in creation order |
| Animations.FlyThroughIsOneChain | src/app/services/three/animations-manager.ts:45-94 | one linear chain of 29 camera tweens: start, axis, (0,0,500), 24 orbit points, far point, start; the first takes 1000 ms, only the last waits 500 ms and only the last completes into onAnimationEnd |
| Animations.VisitObject | src/app/services/three/animations-manager.ts:118-188 | the traverse callback leaves the object as specified and pushes the specified tween and sphere entry |
| Animations.TraverseEventData | src/app/services/three/animations-manager.ts:118-189 | the traversal prepares every object and collects the Track/Jet tweens and the sphere entries in traversal order |
| Animations.ObjectTweensAnimate | src/app/services/three/animations-manager.ts:121-165 | each Track/Jet tween is the one made for the object it animates |
| Animations.ObjectTweensOrdered | src/app/services/three/animations-manager.ts:118-189 | the tweens follow traversal order, at most one per object |
| Animations.ObjectTweensComplete | src/app/services/three/animations-manager.ts:118-189 | every object whose role animates it has its tween in the list |
| Animations.ObjectTweensUnlinked | src/app/services/three/animations-manager.ts:134-165 | the Track/Jet tweens are not chained and have no onStart |
| Animations.TrackTweened | src/app/services/three/animations-manager.ts:121-144 | a Track gets a tween if and only if its geometry has a non-zero position count and is a BufferGeometry |
| Animations.TrackTweenTargets | src/app/services/three/animations-manager.ts:121-143 | a Track's tween grows the draw count to the position count (times 6 for a tube) and on completion restores the Track's old draw count |
| Animations.TrackNotRevealedBySphere | src/app/services/three/animations-manager.ts:121-145 | a Track, animated or not, is never handed to the sphere |
| Animations.DrawRangeRoundTrip | src/app/services/three/animations-manager.ts:132-141 | after a Track tween completes, the Track has its original draw count again; the range start stays 0 and nothing else changes |
| Animations.RevealPlanForward | src/app/services/three/animations-manager.ts:227 | the reveal's links point forward in the registry |
| Animations.RevealAssembled | src/app/services/three/animations-manager.ts:191-240 | the tweens and callbacks animateEvent sets up are exactly the reveal plan |
| Animations.BuildReveal | src/app/services/three/animations-manager.ts:107-240 | animateEvent's construction yields the prepared objects, the plan and the ids to start |
| Animations.RevealPlanRuns | src/app/services/three/animations-manager.ts:192-240 | Track/Jet tweens run alone; the 3000 sphere tween runs into the 10000 one, which is not started directly, and the two durations sum to the whole; both update from the same entries; onAnimationStart is on the first tween pushed only, onEnd on the second sphere tween only |
| Animations.RescaledProportional | src/app/services/three/animations-manager.ts:158-164 | a Jet update sets the scale on all axes and keeps the position in proportion to the scale |
| Animations.RescaledComposes | src/app/services/three/animations-manager.ts:158-164 | two Jet updates leave the Jet where the last alone would |
| Animations.CollisionCleansUp | src/app/services/three/animations-manager.ts:271-291 | the particles a collision adds are exactly the ones its onComplete removes |
| Animations.CollisionHandsOverToReveal | src/app/services/three/animations-manager.ts:299-313 | once the particles meet, they are removed and the reveal starts; the event data is not shown then, but by the reveal's first tween's onStart; onEnd is on the reveal's last tween |
| Animations.AnimationsManager.constructor | src/app/services/three/animations-manager.ts:16 | an empty registry over the given event data |
| Animations.AnimationsManager.AnimateThroughEvent | src/app/services/three/animations-manager.ts:45-94 | appends the fly-through plan and starts only its first tween |
| Animations.AnimationsManager.AnimateEvent | src/app/services/three/animations-manager.ts:102-241 | prepares the event data, appends the reveal plan and starts every tween pushed to `allTweens` |
| Animations.AnimationsManager.Invoke | src/app/services/three/animations-manager.ts:139-311 | running a callback restores a draw count, applies the sphere update, rescales a Jet, removes the particles then runs the next callback, starts the reveal, or shows the event data, as specified |
| Animations.AnimationsManager.CollideParticles | src/app/services/three/animations-manager.ts:251-292 | two particles of one material at +d and -d on z, two fade-ins and two moves to z=0 started, and the first move's onComplete removes both and then runs onEnd |
| Animations.AnimationsManager.AnimateEventWithCollision | src/app/services/three/animations-manager.ts:299-313 | hides the event data and collides particles (1500 ms, size 20, distance 5000, the Track colour or white) whose meeting starts the reveal, with the event data shown on its start |
| UrlOptions.LastIndexOf | packages/phoenix-event-display/src/managers/url-options-manager.ts:36 | the last position holding the character, or -1 when there is none |
| UrlOptions.QuerySuffixCases | packages/phoenix-event-display/src/managers/url-options-manager.ts:34-37 | with a '?' the query string is the tail from the last '?'; without one it is the address's last character |
| UrlOptions.Lower | packages/phoenix-event-display/src/managers/url-options-manager.ts:73 | the lowercased type has the same length and no upper-case letter; each upper-case letter moves 32 code points up and every other character is kept |
| UrlOptions.LowerIdempotent | packages/phoenix-event-display/src/managers/url-options-manager.ts:73 | lowercasing an already lowercased type changes nothing |
| UrlOptions.ChooseEventNeverMixes | packages/phoenix-event-display/src/managers/url-options-manager.ts:66-74 | both values come from the defaults when `file` or `type` is missing or empty, else both from the URL with the type lowercased; never mixed |
| UrlOptions.LoaderChoice | packages/phoenix-event-display/src/managers/url-options-manager.ts:93-108 | example: a URL type "JiveXML" picks the JiveXML loader with a text body; the same default type, not lowercased, picks the Phoenix loader |
| UrlOptions.NoFetchNoEffect | packages/phoenix-event-display/src/managers/url-options-manager.ts:62-64 | without `fetch` nothing happens and the loader stays |
| UrlOptions.LoaderSetOnlyOnFetch | packages/phoenix-event-display/src/managers/url-options-manager.ts:93-115 | the loader is set iff an event is fetched and its body is read, and it is the one the type names; the error is logged iff the event load did not succeed |
| UrlOptions.ConfigCounts | packages/phoenix-event-display/src/managers/url-options-manager.ts:77-90 | loadConfig adds 'url_config' once and releases it once when `config` is given, otherwise neither |
| UrlOptions.EventCounts | packages/phoenix-event-display/src/managers/url-options-manager.ts:94-115 | the event fetch and its settling add 'url_event' once and release nothing |
| UrlOptions.EventThenConfigBalanced | packages/phoenix-event-display/src/managers/url-options-manager.ts:93-120 | with an event to load, every item is added at most once and released once after being added |
| UrlOptions.ConfigOnlyBalanced | packages/phoenix-event-display/src/managers/url-options-manager.ts:121-123 | without an event, the same holds for loadConfig alone |
| UrlOptions.ItemsBalanced | packages/phoenix-event-display/src/managers/url-options-manager.ts:77-123 | each addLoadableItem is matched by exactly one later itemLoaded of the same id, however the fetches end |
| UrlOptions.ConfigAfterEvent | packages/phoenix-event-display/src/managers/url-options-manager.ts:116-123 | with an event, the state is fetched after the event settled (built or error logged) and before 'url_event' is released; without one it is fetched at once and no event is touched |
| UrlOptions.ElementsOf | packages/phoenix-event-display/src/managers/url-options-manager.ts:148-153 | the ids of a list, as a set |
| UrlOptions.HiddenByUnion | packages/phoenix-event-display/src/managers/url-options-manager.ts:146-160 | a widget is hidden iff some option set to exactly "true" lists it |
| UrlOptions.HiddenIdsExactly | packages/phoenix-event-display/src/managers/url-options-manager.ts:130-160 | a widget is hidden iff hideWidgets is "true" or its own option is "true" |
| UrlOptions.URLOptionsManager.constructor | packages/phoenix-event-display/src/managers/url-options-manager.ts:30-38 | the parameters are parsed from the suffix from the last '?' |
| UrlOptions.URLOptionsManager.ApplyEventOptions | packages/phoenix-event-display/src/managers/url-options-manager.ts:58-124 | appends the specified effect trace and leaves the specified loader |
| UrlOptions.URLOptionsManager.LoadEventThenConfig | packages/phoenix-event-display/src/managers/url-options-manager.ts:93-120 | the event fetch, then in its `finally` loadConfig and the release of 'url_event' |
| UrlOptions.URLOptionsManager.LoadEvent | packages/phoenix-event-display/src/managers/url-options-manager.ts:94-115 | adds 'url_event', fetches with the body type for the type, then sets the loader and builds, or logs the error |
| UrlOptions.URLOptionsManager.LoadConfigStart | packages/phoenix-event-display/src/managers/url-options-manager.ts:77-81 | with `config`, adds 'url_config' and fetches it as JSON |
| UrlOptions.URLOptionsManager.LoadConfigEnd | packages/phoenix-event-display/src/managers/url-options-manager.ts:82-88 | with `config`, applies the state on success and releases 'url_config' in any case |
| UrlOptions.URLOptionsManager.ApplyHideWidgetsOptions | packages/phoenix-event-display/src/managers/url-options-manager.ts:129-161 | hides exactly the present widgets that the options set to "true" list |
| UrlOptions.URLOptionsManager.ApplyOptions | packages/phoenix-event-display/src/managers/url-options-manager.ts:43-50 | event options with the configured default file and type, then hidden widgets |
| UiService.StoreTheme | src/app/services/ui.service.ts:495-502 | 'theme' becomes "dark" or "light"; every other key is kept |
| UiService.DetectAfterSet | src/app/services/ui.service.ts:471-506 | detecting right after setting a theme gives that theme, whatever the system preference |
| UiService.DetectDecides | src/app/services/ui.service.ts:471-489 | a stored theme decides (dark iff "dark"); without one, dark iff matchMedia exists and prefers dark; "Dark" means light |
| UiService.PresetIndex | src/app/services/ui.service.ts:579-580 | a selected preset index is below 8 |
| UiService.PresetIndexExactly | src/app/services/ui.service.ts:579-580 | key codes 49..56 select index keyCode-49 and nothing else does; 48 and 57 select nothing |
| UiService.PresetKeyFor | src/app/services/ui.service.ts:579-580 | each of presets 0..7 has its key |
| UiService.KeyResponseExactly | src/app/services/ui.service.ts:571-584 | the theme flips iff Shift+T; a view is shown iff Shift plus 1..8 and the preset exists; never both |
| UiService.ReplaceFolderKeepsOne | src/app/services/ui.service.ts:277-310 | after the previous "Event Data" folder is removed with everything below it and the new one added, the new one is the only such folder; the nodes below the old folder are gone, and every node not below it is unchanged |
| UiService.ReplaceFolderOrdered | src/app/services/ui.service.ts:279-297 | no node outlives its parent: after the replacement every node still hangs below the root or below an older node of the menu |
| UiService.ReplaceFolderTakesChildren | src/app/services/ui.service.ts:294-297 | example: a collection node under the old "Event Data" node is removed with it |
| UiService.ReplaceFolderValid | src/app/services/ui.service.ts:277-310 | the replacement keeps ids fresh, the menu ordered, a single "Event Data" folder and the geometry folder |
| UiService.GeometryFolderValid | src/app/services/ui.service.ts:137-153 | the "Geometries" folder is made if missing and gets its earlier controls followed by Show and Wireframe; other folders are unchanged |
| UiService.CutSliders | src/app/services/ui.service.ts:429-446 | two sliders per cut |
| UiService.CutSlidersAt | src/app/services/ui.service.ts:429-446 | cut k owns slider 2k ("Min", moving minValue) and 2k+1 ("Max", moving maxValue), both ranging over the cut's bounds at creation |
| UiService.AddCutSliders | src/app/services/ui.service.ts:429-447 | the loop builds exactly those sliders |
| UiService.UIService.constructor | src/app/services/ui.service.ts:64-65 | no menus, no configuration, the browser's storage |
| UiService.UIService.SetDarkTheme | src/app/services/ui.service.ts:495-506 | stores and sets the theme, remembers it and darkens the background accordingly |
| UiService.UIService.GetDarkTheme | src/app/services/ui.service.ts:512-514 | returns the remembered theme |
| UiService.UIService.DetectColorScheme | src/app/services/ui.service.ts:471-489 | the detected theme is set as by setDarkTheme |
| UiService.UIService.ShowUI | src/app/services/ui.service.ts:71-87 | keeps the configuration; sets up a fresh attached dat.GUI menu when enabled, and leaves the menu and its attachment alone otherwise; detects the theme, stores it, sets `data-theme` and passes it to the background once; enables the Phoenix menu when a root is given |
| UiService.UIService.ShowDatGUIMenu | src/app/services/ui.service.ts:114-124 | an empty menu in the document with no remembered folders |
| UiService.UIService.ClearUI | src/app/services/ui.service.ts:129-132 | the menu leaves the document and the geometry folder is forgotten; the event folder is kept |
| UiService.UIService.AddGeomFolder | src/app/services/ui.service.ts:137-174 | in dat.GUI the geometry folder gets its toggles; in the Phoenix menu a new "Detector" node on every call |
| UiService.UIService.AddGeometryToggles | src/app/services/ui.service.ts:138-153 | the dat.GUI half of addGeomFolder |
| UiService.UIService.AddDetectorNode | src/app/services/ui.service.ts:155-173 | the Phoenix-menu half of addGeomFolder |
| UiService.UIService.AddEventDataFolder | src/app/services/ui.service.ts:277-310 | in each enabled menu, the previous "Event Data" folder and every node below it are removed and a new folder with its toggles on is added, leaving exactly one |
| UiService.UIService.ReplaceGuiEventFolder | src/app/services/ui.service.ts:278-292 | the dat.GUI replacement, removing the old folder with its subfolders |
| UiService.UIService.ReplacePmEventFolder | src/app/services/ui.service.ts:294-309 | the Phoenix-menu replacement, removing the old node with its subtree |
| UiService.UIService.AddCollectionPM | src/app/services/ui.service.ts:408-450 | a collection node under the type node, with colour, caption, reset button and two sliders per cut when cuts are given |
| UiService.UIService.SliderChanged | src/app/services/ui.service.ts:434-445 | a "Min" slider sets only minValue, a "Max" slider only maxValue, then the collection is filtered with the cut |
| UiService.UIService.GetPresetViews | src/app/services/ui.service.ts:528-532 | the configuration's views, none before showUI |
| UiService.UIService.DisplayView | src/app/services/ui.service.ts:538-540 | animates the camera to the view's position, looking at the origin, over 1000 ms |
| UiService.UIService.KeyDown | src/app/services/ui.service.ts:570-586 | Shift+T negates the theme, storing it and setting `data-theme`; Shift+1..8 shows an existing preset; otherwise storage, `data-theme`, the theme and the effects are unchanged |
| ArManager.StartedState | packages/phoenix-event-display/src/managers/three-manager/ar-manager.ts:38-44 | in a session the groups have scale 0.00001, near is 0.01, the camera is at (0,0,0.1), the root's scale is untouched and the root x-scale, near and position are saved |
| ArManager.SessionRoundTrip | packages/phoenix-event-display/src/managers/three-manager/ar-manager.ts:38-56 | start then end restores near and position whatever the camera did meanwhile, and gives each group the root's x-scale from the start |
| ArManager.GroupScaleNotRestored | packages/phoenix-event-display/src/managers/three-manager/ar-manager.ts:39-54 | example: a group scaled to 2 under a root at 1 ends at 1, not at its own scale |
| ArManager.EndWithoutStart | packages/phoenix-event-display/src/managers/three-manager/ar-manager.ts:17-58 | ending without a start gives scale 1, near 10 and position (1,0,1) |
| ArManager.RestartForgetsCamera | packages/phoenix-event-display/src/managers/three-manager/ar-manager.ts:38-44 | a second start before an end saves the session camera, so the end leaves near 0.01 and position (0,0,0.1) |
| ArManager.ARManager.constructor | packages/phoenix-event-display/src/managers/three-manager/ar-manager.ts:17-31 | the saved values start at scale 1, near 10 and position (1,0,1) |
| ArManager.ARManager.ScaleScene | packages/phoenix-event-display/src/managers/three-manager/ar-manager.ts:64-72 | the three groups get the scale on every axis; the root and camera do not change |
| ArManager.ARManager.OnXRSessionStarted | packages/phoenix-event-display/src/managers/three-manager/ar-manager.ts:38-47 | the new view and saved values are the specified start; the saved position is a fresh copy |
| ArManager.ARManager.OnXRSessionEnded | packages/phoenix-event-display/src/managers/three-manager/ar-manager.ts:53-58 | the new view is the specified end; the saved values are kept |
| ArManager.ARManager.Session | packages/phoenix-event-display/src/managers/three-manager/ar-manager.ts:38-58 | start, a camera move, then end restores near and position and leaves the root's scale and the groups at the root's x-scale; the saved position is a copy, so the move does not affect it |

## Left out

- UiService.UIService.AddCollectionPM: requires the type node to be in the Phoenix menu. The source calls `addChild` on whatever node it is given, and an undefined node throws.
- Animations.AnimationsManager.AnimateEvent: requires every Hit with a geometry to have a position attribute (`HitsReady`). The source reads `attributes['position'].array` unguarded and throws otherwise.
- Animations.AnimationsManager.Invoke: inherits that requirement when the callback starts the reveal.
- UiService.UIService.KeyDown: before `showUI` the source throws on `this.configuration.presetViews`; the model shows no view instead.
- ArManager.ARManager.ScaleScene: assumes the three named groups exist and have distinct scale vectors (`Valid`). The source throws when `getObjectByName` finds nothing.
- ArManager: `renderer.xr.setReferenceSpaceType` and the `super.onXRSessionStarted`/`onXRSessionEnded` calls are left out; they are WebXR browser API. The async start is modelled as one step.
- Numbers are modelled as exact reals, not IEEE doubles or the `Float32Array` that holds hit positions. This covers the 0.75/0.25 duration split and the Jet rescale for a non-zero previous scale.
- Animations.Rescaled: when a Jet's previous x-scale is 0, the model keeps the position. The source's `divideScalar(0)` gives Infinity or NaN coordinates, which reals cannot express.
- Animations.ApplyTarget: a rebuilt Hit's position count is the number of values divided by 3, rounded down; `new BufferAttribute(arr, 3)` stores `arr.length / 3` unrounded. So a short last triple (4 values) gives a count of 1 here and 4/3 in three.js. The same rounding is in Animations.OnAnimationSphereUpdate and Animations.AnimationsManager.Invoke.
- Animations.TargetPosition: the source reads `geometry.boundingSphere.center` for every object other than a Track or Jet whose position is the origin, Hits included, before the Hit branch replaces that value. The read throws while `boundingSphere` is still null. The model assumes it has been computed: it reads the centre only for a non-Hit at the origin and never reads it for a Hit, so it does not capture the throw.
- The orbit waypoints are kept symbolic (`Orbit(i)`) instead of 500·sin/cos. Easings are kept as labels; the interpolation is not modelled.
- Animations.TweenFor: a Jet's scale tween records only its target (`ScaleTo(i, o.scale)`). The start value the source gives it, `{x: 0.01, y: 0.01, z: 0.01}`, is not in the tween record, as no interpolation is modelled.
- Tween.js time stepping is not modelled: which frame an onUpdate runs in, and the interpolated sphere radius. `Invoke` runs one callback with the sphere and scale it would receive.
- `computeBoundingSphere`, `deleteAttribute` and the BufferAttribute construction are only followed as far as the position attribute's values and the rounded count above; the bounding sphere is three.js geometry math.
- `getCameraTween` with the active camera, and `Sphere.containsPoint`, are abstract: a camera target, and a predicate parameter.
- `fetch`, promises, `res.json()`/`res.text()`, the loaders' parsing, `buildEventDataFromJSON`/`parsePhoenixEvents` and `StateManager.loadStateFromJSON` are async I/O and unseen libraries. How each fetch ends is an input (`EventOutcome`, `ConfigOutcome`).
- The `console.error` line is left out.
- `URLSearchParams` parsing is the constructor's `parse` parameter. `window.location.href`, the presence of `fetch` and the document's elements are inputs too.
- UrlOptions.Lower: lowercases ASCII letters only; Unicode case mapping is not modelled.
- The DOM: `document.getElementById`, styles, `data-theme`, stats-js (`showStats`, `updateUI`) and the dat.GUI widgets themselves. Folders are map entries, controls are records, and `display: none` is membership in `hidden`.
- dat.GUI throws on a second folder of the same name, for instance `addGeomFolder` after `clearUI`, when the old "Geometries" folder is still in the menu. The model instead holds both folders.
- `SceneManager.GEOMETRIES_ID` is taken to be "Geometries"; scene-manager.ts is not part of this model.
- The content of the Phoenix menu root (`setPhoenixMenu`, `getPhoenixMenuRoot`) is not modelled. The menu starts empty.
- Other ui.service.ts operations are one-line forwards to ThreeService or dat.GUI widget construction, with no rule of their own: `addGeometry`, `removeOBJ`, `geometryVisibility`, `addEventDataTypeFolder`, `addEventDataTypeFolderPM`, `addCollection`, `getEventDataFolder`, `rotateClipping`, `setClipping`, `setAutoRotate`, `toggleOrthographicView` and `setOverlayRenderer`.
- The onChange handlers that only forward to the scene manager are not modelled. That is all of them except the cut sliders.
- `enableKeyboardControls` registering the listener is left out; `KeyDown` is the listener.
- The callers eventdisplay.service.ts and ui-menu.component.ts are not part of this model: they are orchestration and Angular wiring.
- That the hidden widgets are among the six overlay ids holds by construction: `Widget` has exactly those six values.
