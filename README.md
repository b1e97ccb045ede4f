# Globe header: a verified Dafny model

This project models the animated globe shown in the GitHub home-page header: a three.js scene. The scene is a globe of dots, spikes for recently opened pull requests, arcs for recently merged pull requests, and a pop-up card describing the one under the cursor. Each JavaScript module of the globe's core becomes one Dafny module:

- `JsValues`: the JavaScript value semantics that the code depends on:
  - `null` and `undefined` (`Js<T>`);
  - `NaN` (`Num`);
  - truthiness and `||`;
  - `parseInt`, `Math.ceil`, `x | 0` and `Array.prototype.slice` with a negative start.
- `Utils` (`utils.js`): the numeric helpers (`normalize`, `lerp`, `map`, `clamp`, `loop`, `smoothstep`, `inRange`), the substring test `contains` and the coordinate filter `hasValidCoordinates`.
- `ThreeUtils` (`three-utils.js`): angle conversion, `randomRange`, and the post-order `disposeHierarchy` over a scene-graph tree.
- `AppProps` (`app-props.js`): the global property bag and its `setAppProps` merge.
- `Loader` (`loader.js`): the manifest dispatch to the texture loader or the JSON loader, the per-asset progress records, and the progress report.
- `Globe` (`globe.js`): the list of shader uniform records and the setters that broadcast a value to every record.
- `Controls` (`controls.js`): pointer-driven rotation:
  - dragging state and mouse mapping;
  - the eased rotation and tilt, with the tilt clamp;
  - the idempotent registration of event listeners.
- `DataInfo` (`data-info.js`): the pop-up card:
  - placement inside the window;
  - header and text for each pop-up type;
  - the "already shown" de-duplication;
  - language colours;
  - show and hide, which also slow down and speed up auto-rotation.
- `OpenPrEntity` (`open-pr-entity.js`): neighbour densities, the min/max scan, spike placement aligned with the list of valid locations, and the draw window around the visible index.
- `MergedPrEntity` (`merged-pr-entity.js`):
  - which rows get an arc, building the line, hit and landing meshes in lockstep;
  - the per-frame advance and retreat of every animated arc, with a hovered arc frozen;
  - the landing animations;
  - highlighting one arc.
- `WebGLHeader` (`webgl-header.js`): `filterData` (fill in missing fields, drop bad rows, shuffle, pad for wrap-around), the primary/fallback data decision, and `init`.
- `WebGLController` (`webgl-controller.js`):
  - the frame-rate monitor that steps the render quality down, and the settings of each quality tier;
  - the visible-index advance;
  - the raycast throttle;
  - picking the first qualifying hit;
  - the actions each frame takes on the pop-up card;
  - the click-cancel rule.

The meshes are modelled as index-addressed arenas (sequence fields). Each animated arc holds the index of its own line mesh. Geometric distance tests are abstract predicates given as parameters. Randomness, clock times and raycaster results are parameters too.

Where the code does something a reader might not expect, the model follows the code:

- In `getDensities` the maximum is updated in an `else if`, so a density that lowers the minimum is never compared with the maximum. With strictly decreasing densities the maximum stays at its start value −1 (`OpenPrEntity.ScanDecreasing`, `OpenPrEntity.ScanMissedMaximumExample`). Once any later density reaches the running maximum, the maximum is exact (`OpenPrEntity.ScanMaxExact`).
- The emergency branch of `monitorFps` needs a full window averaging below 12 frames per second. Such an average is also below the 52.5 target checked first, so under the shipped thresholds the first branch always runs and the emergency branch cannot be reached (`WebGLController.EmergencyUnreachable`). The model keeps the thresholds as a configuration read from fields, so the branch is still modelled.
- `CUSTOM` pop-ups de-duplicate on the same `#pr nwo` header as pull requests. Their `pr` and `nwo` are missing, so any two `CUSTOM` records share one key, and the second one is ignored (`DataInfo.CustomRecordsShareKey`).
- `handleUpdate` filters spike hits by the visible window. `shouldShowMergedPrEntity` is never called, so a line hit is picked whatever the window (`WebGLController.LineHitIgnoresWindow`).

## Model

| member | source | states |
|---|---|---|
| JsValues.Default | src/js/io/controls.js:134 | a destructuring default replaces only `undefined`; `null` and real values pass through unchanged |
| JsValues.AtLeast | src/js/utils/utils.js:139-141 | a `>=` comparison holds iff the number is not NaN and is at least the bound |
| JsValues.AtMost | src/js/utils/utils.js:139-141 | a `<=` comparison holds iff the number is not NaN and is at most the bound |
| JsValues.Or | src/js/core/webgl-header.js:86-89 | `a \|\| b` yields `a` when it is truthy and `b` otherwise; the result is truthy iff either operand is |
| JsValues.Trunc | src/js/managers/webgl-controller.js:310 | `parseInt` of 0, or of a number whose magnitude lies in [1e-6, 1e21), truncates toward zero: the floor for non-negative inputs, the ceiling for negative ones |
| JsValues.Ceil | src/js/entities/merged-pr-entity.js:180-181 | `Math.ceil`: the least integer not below the input |
| JsValues.ToInt32 | src/js/entities/open-pr-entity.js:218-219 | `x \| 0` is a signed 32-bit integer congruent to the truncation modulo 2^32, and equal to it when that fits |
| JsValues.SliceInBounds | src/js/core/webgl-header.js:98-99 | `slice` with in-range bounds is the ordinary subsequence |
| JsValues.SliceNegativeStart | src/js/core/webgl-header.js:98 | a negative `slice` start counts back from the end, clamped at 0 |
| Utils.HasValidCoordinates | src/js/utils/utils.js:137-144 | a location is accepted iff latitude and longitude are numbers, latitude in [-90, 90] and longitude in [-180, 180] |
| Utils.BoundariesAccepted | src/js/utils/utils.js:137-144 | the range ends themselves are accepted; an out-of-range latitude and a NaN coordinate are rejected |
| Utils.Normalize | src/js/utils/utils.js:19-21 | the result is the fraction of the way from `min` to `max`: 0 at `min`, 1 at `max` |
| Utils.Lerp | src/js/utils/utils.js:23-25 | interpolation hits `min` at 0 and `max` at 1 and stays inside the range for a norm in [0, 1] |
| Utils.Map | src/js/utils/utils.js:32-34 | the source range's ends map to the destination range's ends |
| Utils.MapRoundTrip | src/js/utils/utils.js:32-34 | mapping back with the ranges swapped returns the original value |
| Utils.Clamp | src/js/utils/utils.js:36-38 | the result lies in `[min, max]` and equals the value when the value already lies there; with `min > max` it is `min` |
| Utils.Loop | src/js/utils/utils.js:40-42 | a value below the range wraps to `max`, a value above it wraps to `min`, and a value inside it is kept |
| Utils.InRange | src/js/utils/utils.js:54-56 | true iff the value lies between the two bounds, whichever order they are given in |
| Utils.InRangeSymmetric | src/js/utils/utils.js:54-56 | swapping the two bounds does not change the answer |
| Utils.Smoothstep | src/js/utils/utils.js:27-30 | the result lies in [0, 1]: 0 at or below `min`, 1 at or above `max` |
| Utils.SmoothBounded | src/js/utils/utils.js:28-29 | the Hermite polynomial maps [0, 1] into [0, 1] |
| Utils.SmoothEnds | src/js/utils/utils.js:27-28 | the normalized input is at most 0 below the range and at least 1 above it, so the clamp fires |
| Utils.IndexOf | src/js/utils/utils.js:83 | `indexOf` is above −1 iff the needle occurs in the string, and then it is an occurrence position |
| Utils.Contains | src/js/utils/utils.js:81-89 | the loop answers true iff at least one of the test strings occurs in the source string |
| ThreeUtils.DegreesToRadians | src/js/utils/three-utils.js:8-10 | 180 degrees is π radians |
| ThreeUtils.RadiansToDegrees | src/js/utils/three-utils.js:12-14 | π radians is 180 degrees |
| ThreeUtils.AngleRoundTrip | src/js/utils/three-utils.js:8-14 | the two conversions are inverse to each other |
| ThreeUtils.RandomRange | src/js/utils/three-utils.js:16-18 | for a random draw in [0, 1) the result lies in `[min, max)` |
| ThreeUtils.DisposeHierarchy | src/js/utils/three-utils.js:51-60 | the callbacks are the post-order traversal of the tree, or none when no callback is given |
| ThreeUtils.VisitsEachDescendantOnce | src/js/utils/three-utils.js:51-60 | every proper descendant is handed to the callback exactly once |
| ThreeUtils.VisitsOnlyDescendants | src/js/utils/three-utils.js:51-60 | only proper descendants are visited; the root itself never is |
| ThreeUtils.DescendantIsLower | src/js/utils/three-utils.js:53-56 | a proper descendant is lower than its ancestor, which makes the recursion terminate |
| ThreeUtils.VisitIsPostOrdered | src/js/utils/three-utils.js:53-56 | each node is handed over right after the callbacks for its whole subtree |
| ThreeUtils.SiblingsLastToFirst | src/js/utils/three-utils.js:52 | children are disposed from the last one to the first |
| ThreeUtils.SuffixOfVisit | src/js/utils/three-utils.js:52-57 | the visit of the lower children is a suffix of the visit of a longer prefix of children |
| AppProps.MergedTakesNewValues | src/js/core/app-props.js:3-7 | after a merge each assigned key holds the value assigned to it |
| AppProps.MergedKeepsOthers | src/js/core/app-props.js:3-7 | keys not assigned keep their presence and their value |
| AppProps.MergedKeys | src/js/core/app-props.js:3-7 | the key set becomes the old keys plus the assigned keys |
| AppProps.MergedIdempotent | src/js/core/app-props.js:3-7 | merging the same entries twice is the same as merging them once |
| AppProps.EmptyMergeIsNoOp | src/js/core/app-props.js:3-7 | an empty assignment changes nothing |
| AppProps.AppPropsBag.constructor | src/js/core/app-props.js:1 | the bag starts empty |
| AppProps.AppPropsBag.SetAppProps | src/js/core/app-props.js:3-7 | the bag becomes the merge of its old contents with the entries |
| Loader.ClassifySpec | src/js/utils/loader.js:32-49 | an array URL starts nothing; an image URL is loaded as a texture, even with a data type set; a non-image URL whose `dataType` is JSON is loaded as data; anything else is skipped |
| Loader.ImageWinsOverJson | src/js/utils/loader.js:34-41 | a `.png` URL that also contains `.json` goes to the texture loader |
| Loader.JsonNeedsDataType | src/js/utils/loader.js:42-46 | a `.json` URL without the JSON data type starts nothing |
| Loader.StartedFor | src/js/utils/loader.js:32-49 | an asset starts a request iff it is not skipped, and the request kind follows the classification |
| Loader.Requests | src/js/utils/loader.js:32-49 | at most one request per manifest entry |
| Loader.RequestsSound | src/js/utils/loader.js:32-49 | every request belongs to a manifest asset that was not skipped, and the request kind matches the asset's classification |
| Loader.RequestsCoverManifest | src/js/utils/loader.js:32-49 | every loadable asset of the manifest gets a request |
| Loader.Put | src/js/utils/loader.js:60 | writing a progress record sets that id's entry and leaves every other id's entry as it was |
| Loader.FreshRecordsSumToZero | src/js/utils/loader.js:118-134 | while every record is still zero, the summed progress is zero too |
| Loader.Loader.constructor | src/js/utils/loader.js:10-12 | no records and no loaders in use |
| Loader.Loader.Reset | src/js/utils/loader.js:14-18 | the records and the loader flags are cleared |
| Loader.Loader.Start | src/js/utils/loader.js:32-49 | one manifest step: starts `StartedFor(asset)`, sets the loader flags and writes a zero record when something started |
| Loader.Loader.Load | src/js/utils/loader.js:20-57 | an empty manifest resolves `null`; otherwise the requests are `Requests(manifest)`; the records are exactly one zero record per requested asset id, since `reset` clears them first, and the flags say which loaders are in use |
| Loader.Loader.RecordProgress | src/js/utils/loader.js:74-77 | a progress event for an id with a record overwrites that record and nothing else; for an id without one, left over from a request of an earlier `load`, the write throws and nothing changes |
| Loader.Loader.Update | src/js/utils/loader.js:118-134 | the report is the sum of loaded and total bytes over all records when a callback is set, and nothing otherwise |
| Globe.Write | src/js/entities/globe.js:67-112 | writing one uniform field sets that field and leaves every other field as it was |
| Globe.Broadcast | src/js/entities/globe.js:67-112 | a setter keeps the number of compiled records |
| Globe.BroadcastSetsEveryRecord | src/js/entities/globe.js:67-112 | after a setter every record holds the new value in that field and its other fields unchanged |
| Globe.BroadcastIdempotent | src/js/entities/globe.js:67-112 | calling a setter twice with the same value is the same as calling it once |
| Globe.BroadcastCommutes | src/js/entities/globe.js:67-112 | setters for different fields commute |
| Globe.Globe.constructor | src/js/entities/globe.js:12-36 | the props are captured, the front highlight colour defaults to `0x36427d`, and the record list is empty |
| Globe.Globe.OnBeforeCompile | src/js/entities/globe.js:38-49 | each compile appends one record with the current points; after dispose it throws and changes nothing |
| Globe.Globe.Set | src/js/entities/globe.js:67-112 | a setter broadcasts the value to all records, and does nothing after dispose |
| Globe.Globe.SetShadowPoint | src/js/entities/globe.js:67-73 | the shadow point of every record is replaced |
| Globe.Globe.SetHighlightPoint | src/js/entities/globe.js:76-84 | the highlight point of every record is replaced |
| Globe.Globe.SetFrontPoint | src/js/entities/globe.js:87-93 | the front point of every record is replaced |
| Globe.Globe.SetShadowDist | src/js/entities/globe.js:96-102 | the shadow distance of every record is replaced |
| Globe.Globe.SetHighlightDist | src/js/entities/globe.js:105-112 | the highlight distance of every record is replaced |
| Globe.Globe.Dispose | src/js/entities/globe.js:114-119 | the record list becomes `null`, so every later setter is a no-op |
| Controls.Eased | src/js/io/controls.js:142-152 | each easing step closes the fraction `factor` of the gap to the target and never overshoots it |
| Controls.EasedBetween | src/js/io/controls.js:142-152 | an easing step lands between the current value and the target |
| Controls.EasedAtTarget | src/js/io/controls.js:142-152 | a value at its target stays there |
| Controls.MouseFor | src/js/io/controls.js:76-80 | the viewport corners map to the normalized-device corners (x from −1 to 1, y from 1 to −1) |
| Controls.MouseIsMap | src/js/io/controls.js:76-80 | the mouse mapping is `Utils.Map` of each coordinate onto the device range |
| Controls.BindingsDistinct | src/js/io/controls.js:39-59 | the nine listener registrations (seven handlers, plus `mouseleave` and `touchcancel`) are pairwise distinct |
| Controls.Remove | src/js/io/controls.js:61-74 | removing a listener drops exactly that binding; removing an absent one changes nothing |
| Controls.Add | src/js/io/controls.js:39-59 | adding a registered listener changes nothing; an absent one is appended |
| Controls.RemoveAllSpec | src/js/io/controls.js:61-74 | after removal exactly the bindings not removed are left |
| Controls.AddAllFresh | src/js/io/controls.js:39-59 | listeners absent from the registry are appended in order |
| Controls.RegisteredOnce | src/js/io/controls.js:39-59 | re-adding the listeners leaves one copy of each binding |
| Controls.RegisteredOnFreshElement | src/js/io/controls.js:24-59 | on a fresh element the constructor registers exactly the nine bindings |
| Controls.RemoveConcat | src/js/io/controls.js:61-74 | removal distributes over concatenation |
| Controls.RemoveAllConcat | src/js/io/controls.js:61-74 | removing several listeners distributes over concatenation |
| Controls.RemoveAllUntouched | src/js/io/controls.js:61-74 | removing listeners that are not registered changes nothing |
| Controls.RemoveAllSelf | src/js/io/controls.js:61-74 | removing every registered binding empties the registry |
| Controls.RegisteredAfterRemove | src/js/io/controls.js:90-96 | resume after pause gives the same registry as a second resume |
| Controls.RegisteredIdempotent | src/js/io/controls.js:90-96 | adding the listeners twice is the same as once |
| Controls.Controls.constructor | src/js/io/controls.js:24-37 | the options are captured, the state is at rest with the mouse at (0.5, 0.5), the nine listener bindings are registered, the pause and resume events are subscribed and the tilt is in bounds |
| Controls.Controls.SetDragging | src/js/io/controls.js:82-88 | sets the flag and reports it to the callback when one is given; nothing else changes |
| Controls.Controls.SetMouse | src/js/io/controls.js:76-80 | the mouse becomes the normalized pointer position; nothing else changes |
| Controls.Controls.HandleMouseDown | src/js/io/controls.js:98-101 | starts dragging at the pointer position; `lastMouse`, the rotation targets, velocity, tilt, scalars and listeners are untouched |
| Controls.Controls.HandleMove | src/js/io/controls.js:103-105 | tracks the pointer; dragging, `lastMouse`, the rotation targets, velocity, tilt, scalars and listeners are untouched |
| Controls.Controls.HandleRelease | src/js/io/controls.js:107-110 | stops dragging at the pointer position; `lastMouse`, the rotation targets, velocity, tilt, scalars and listeners are untouched |
| Controls.Controls.HandleMouseOut | src/js/io/controls.js:112-114 | stops dragging; the mouse, `lastMouse`, the rotation targets, velocity, tilt, scalars and listeners are untouched |
| Controls.Controls.HandleTouchStart | src/js/io/controls.js:116-120 | starts dragging with last and current mouse both at the touch point, so the first move gives no jump; the rotation targets, velocity, tilt, scalars and listeners are untouched |
| Controls.Controls.RemoveListeners | src/js/io/controls.js:61-74 | the nine bindings are removed from the registry |
| Controls.Controls.AddListeners | src/js/io/controls.js:39-59 | the registry becomes `Registered(old registry)`: each binding is present once |
| Controls.Controls.Update | src/js/io/controls.js:131-156 | while dragging the velocity is the mouse delta and the tilt target is clamped to [−maxRotationX, 0.6·maxRotationX]; both rotations and the auto-rotation scalar ease toward their targets; the tilt stays in bounds |
| Controls.Controls.Dispose | src/js/io/controls.js:158-161 | the nine listeners are removed and the pause and resume subscriptions are dropped; nothing else in the model changes |
| DataInfo.CardX | src/js/ui/data-info.js:60-63 | the card sits right of the cursor unless that would cross the window's right edge, in which case it is pinned to that edge |
| DataInfo.CardY | src/js/ui/data-info.js:61-66 | the card sits below the cursor unless that would cross the bottom edge, in which case it is placed above the cursor |
| DataInfo.PlacementMeaning | src/js/ui/data-info.js:60-66 | the card never crosses the right edge, and when it is moved vertically it lies above the cursor |
| DataInfo.PrHeader | src/js/ui/data-info.js:72-73 | the header starts with `#` |
| DataInfo.NatToStringInjective | src/js/ui/data-info.js:72 | distinct non-negative ids print as distinct digit strings |
| DataInfo.IntToStringInjective | src/js/ui/data-info.js:72 | distinct integer ids print as distinct strings |
| DataInfo.ShowIntInjective | src/js/ui/data-info.js:72 | `${pr_id}` determines the id, including `null` and `undefined` |
| DataInfo.SplitAtFirstSpace | src/js/ui/data-info.js:72 | a header `#id name` whose id has no space splits uniquely into id and name |
| DataInfo.PrHeaderIdentifies | src/js/ui/data-info.js:72-73 | two headers are equal iff the ids are equal and the names print the same |
| DataInfo.ShouldShowTime | src/js/ui/data-info.js:105 | the time line is shown iff a time is present and is less than a day old |
| DataInfo.LanguagePrefix | src/js/ui/data-info.js:84-90 | a `null` language gives no prefix; otherwise the prefix shows the language with its colour |
| DataInfo.SetInfoCard | src/js/ui/data-info.js:70-97 | a record already shown leaves the card alone; otherwise the header, link and body follow the pop-up type, and an unknown type changes only header and link |
| DataInfo.SetInfoIdempotent | src/js/ui/data-info.js:70-97 | showing the same record twice is the same as showing it once |
| DataInfo.CustomRecordsShareKey | src/js/ui/data-info.js:70-72 | after one `CUSTOM` record is shown, a second `CUSTOM` record leaves the card unchanged |
| DataInfo.ColorForLanguage | src/js/ui/data-info.js:160-262 | a language has a colour iff it is in the table, and then it is the table's entry; otherwise `undefined` |
| DataInfo.DataInfo.constructor | src/js/ui/data-info.js:10-57 | hidden, no pointer cursor, and the card in its initial state |
| DataInfo.DataInfo.SetInfo | src/js/ui/data-info.js:70-97 | the card becomes `SetInfoCard` of the old card; visibility is unchanged |
| DataInfo.DataInfo.Show | src/js/ui/data-info.js:117-126 | the card becomes visible and the auto-rotation target drops to 0; showing again does nothing more; it writes only the visibility, display and cursor flags and the controls' rotation target, so the card text and every other controls field are untouched |
| DataInfo.DataInfo.Hide | src/js/ui/data-info.js:128-136 | the card is hidden and the auto-rotation target returns to 1; hiding again does nothing more; it writes only the visibility, display and cursor flags and the controls' rotation target, so the card text and every other controls field are untouched |
| OpenPrEntity.Locations | src/js/entities/open-pr-entity.js:171-183 | the particle list keeps only the rows with valid coordinates |
| OpenPrEntity.NeighbourCountBound | src/js/entities/open-pr-entity.js:185-192 | a point never counts itself as a neighbour |
| OpenPrEntity.DensityBound | src/js/entities/open-pr-entity.js:185-192 | a density lies between 0 and the number of other points |
| OpenPrEntity.AllNearCount | src/js/entities/open-pr-entity.js:185-192 | when all points are near each other, each density counts every other point |
| OpenPrEntity.ScanMin | src/js/entities/open-pr-entity.js:194-199 | the minimum is at most every density and at most its start value, and it is either a density or the start value |
| OpenPrEntity.ScanMaxMember | src/js/entities/open-pr-entity.js:194-199 | the maximum is −1, a density after the first, or the first density when that one did not lower the minimum |
| OpenPrEntity.ScanMaxGrows | src/js/entities/open-pr-entity.js:194-199 | the running maximum never decreases |
| OpenPrEntity.ScanMaxAtLeast | src/js/entities/open-pr-entity.js:194-199 | a later density at least as large as the first one is always offered to the maximum |
| OpenPrEntity.ScanMaxExact | src/js/entities/open-pr-entity.js:194-199 | when the largest density also occurs after the first position, the maximum is exact |
| OpenPrEntity.ScanMaxMissesLeadingMax | src/js/entities/open-pr-entity.js:194-199 | a unique largest first density is missed by the maximum |
| OpenPrEntity.ScanDecreasing | src/js/entities/open-pr-entity.js:194-199 | with strictly decreasing densities the minimum is the last one and the maximum stays −1 |
| OpenPrEntity.ScanMissedMaximumExample | src/js/entities/open-pr-entity.js:194-199 | densities 5 then 3 give the range (3, −1) |
| OpenPrEntity.GetDensities | src/js/entities/open-pr-entity.js:166-202 | one density per valid location, each counting that location's near neighbours, with the min/max of the scan |
| OpenPrEntity.Rank | src/js/entities/open-pr-entity.js:96-110 | the particle index of a row never exceeds the row index |
| OpenPrEntity.RankAligned | src/js/entities/open-pr-entity.js:96-110 | a valid row's particle index points back at that row's location |
| OpenPrEntity.RankStep | src/js/entities/open-pr-entity.js:96-110 | the particle index advances exactly on valid rows |
| OpenPrEntity.SpikeDensityIsOwn | src/js/entities/open-pr-entity.js:96-110 | the density a spike reads is the one computed for its own location |
| OpenPrEntity.PlaceSpikes | src/js/entities/open-pr-entity.js:96-122 | a spike is placed iff the row has valid coordinates, with that row's location and density; the particles are exactly the valid locations |
| OpenPrEntity.DrawWindow | src/js/entities/open-pr-entity.js:218-223 | the draw range starts `maxIndexDistance` before the visible index, truncated to 32 bits and clamped to the data |
| OpenPrEntity.OpenPrEntity.constructor | src/js/entities/open-pr-entity.js:32-161 | spikes exactly on valid rows, each with its own density; particles are the valid locations; the density range is the scan |
| OpenPrEntity.OpenPrEntity.CompileSpikes | src/js/entities/open-pr-entity.js:62-72 | compiling the spike shader captures the initial visible index with no highlight |
| OpenPrEntity.OpenPrEntity.CompileParticles | src/js/entities/open-pr-entity.js:139-149 | compiling the particle shader captures the initial visible index |
| OpenPrEntity.OpenPrEntity.SetHighlightIndex | src/js/entities/open-pr-entity.js:205-209 | sets the highlighted spike once compiled, and does nothing before |
| OpenPrEntity.OpenPrEntity.Update | src/js/entities/open-pr-entity.js:211-225 | once both shaders are compiled, the uniforms get the visible index and the draw range is the window; before that nothing changes |
| OpenPrEntity.OpenPrEntity.Dispose | src/js/entities/open-pr-entity.js:227-238 | both uniform sets become `null` |
| MergedPrEntity.ArcRows | src/js/entities/merged-pr-entity.js:70-86 | an arc is built for exactly the rows that have both ends, in row order |
| MergedPrEntity.BuildLines | src/js/entities/merged-pr-entity.js:70-134 | one line, hit mesh and landing per arc row, built in lockstep and pointing back at that row |
| MergedPrEntity.LandIn | src/js/entities/merged-pr-entity.js:220-235 | a landing dot grows toward full size by a fixed fraction and starts fading once it has landed |
| MergedPrEntity.LandOut | src/js/entities/merged-pr-entity.js:238-257 | a dot shrinks by a fixed fraction each frame and is dropped once it is smaller than the cut-off |
| MergedPrEntity.LandOutAll | src/js/entities/merged-pr-entity.js:194-201 | the shrinking pass never grows the list |
| MergedPrEntity.LandOutAllKeeps | src/js/entities/merged-pr-entity.js:194-201 | the dots that survive are exactly the shrunk versions of those still above the cut-off |
| MergedPrEntity.RetreatStart | src/js/entities/merged-pr-entity.js:180 | the retreat start is rounded up to a whole tube segment |
| MergedPrEntity.AdvanceOne | src/js/entities/merged-pr-entity.js:167-191 | one arc touches only its own draw ranges, and either stays animating or ends |
| MergedPrEntity.AdvanceAll | src/js/entities/merged-pr-entity.js:164-201 | the frame keeps the number of meshes |
| MergedPrEntity.AdvanceAllPartition | src/js/entities/merged-pr-entity.js:164-201 | every animating arc either continues or ends, in order, and ranges change only for the arcs that animated |
| MergedPrEntity.HoveredLineFreezes | src/js/entities/merged-pr-entity.js:174-179 | the hovered arc keeps its ranges and stays animating |
| MergedPrEntity.ForwardPhase | src/js/entities/merged-pr-entity.js:185-188 | before the arc is complete its draw count grows from the start |
| MergedPrEntity.RetreatPhase | src/js/entities/merged-pr-entity.js:180-184 | after completion the drawn range starts at the segment-rounded retreat point |
| MergedPrEntity.LineEnds | src/js/entities/merged-pr-entity.js:189-190 | an arc that has fully retreated ends and hands its landing over to the shrinking list |
| MergedPrEntity.NextIndex | src/js/entities/merged-pr-entity.js:157-162 | an arc starts iff the truncated advanced index lies inside the data and beyond the current index; past the data the index restarts at 0 |
| MergedPrEntity.NewEntry | src/js/entities/merged-pr-entity.js:262-303 | a newly started arc begins with empty ranges and zero dot scales |
| MergedPrEntity.MergedPrEntity.constructor | src/js/entities/merged-pr-entity.js:24-137 | the meshes are built from the arc rows, with no highlight and nothing animating |
| MergedPrEntity.MergedPrEntity.ResetHighlight | src/js/entities/merged-pr-entity.js:140-144 | every line gets the plain tube material and the highlight is cleared |
| MergedPrEntity.MergedPrEntity.SetHighlightObject | src/js/entities/merged-pr-entity.js:147-154 | only the chosen line gets the highlight material; re-highlighting the same line changes nothing |
| MergedPrEntity.MergedPrEntity.EndAnimation | src/js/entities/merged-pr-entity.js:208-217 | an arc's ranges are reset and its landing is queued for shrinking |
| MergedPrEntity.MergedPrEntity.Animate | src/js/entities/merged-pr-entity.js:167-191 | the loop body performs exactly `AdvanceOne` on the meshes |
| MergedPrEntity.MergedPrEntity.StartNext | src/js/entities/merged-pr-entity.js:157-162 | the visible index and the starting arc follow `NextIndex`; the meshes are untouched |
| MergedPrEntity.MergedPrEntity.AnimateAll | src/js/entities/merged-pr-entity.js:164-192 | the loop over animating arcs performs exactly `AdvanceAll` |
| MergedPrEntity.MergedPrEntity.LandingsOutPass | src/js/entities/merged-pr-entity.js:194-198 | the shrinking pass performs exactly `LandOutAll` |
| MergedPrEntity.MergedPrEntity.Update | src/js/entities/merged-pr-entity.js:156-203 | one frame: start the next arc, advance every arc, shrink the landings, keeping the meshes consistent |
| WebGLHeader.FillIn | src/js/core/webgl-header.js:86-89 | each missing location or user is filled in from its counterpart; afterwards both users are truthy or neither is |
| WebGLHeader.Survivors | src/js/core/webgl-header.js:84-93 | every kept row is sane: it has a location and a user |
| WebGLHeader.Insert | src/js/core/webgl-header.js:95 | a random insert adds exactly one element at the drawn position |
| WebGLHeader.ShuffledIsPermutation | src/js/core/webgl-header.js:78-96 | the shuffled list is a permutation of the surviving rows |
| WebGLHeader.KeptIffSurvives | src/js/core/webgl-header.js:78-96 | a row appears in the result iff it is the filled-in form of a surviving input row |
| WebGLHeader.SurvivorsMembers | src/js/core/webgl-header.js:84-93 | the survivors are exactly the filled-in forms of the rows that pass the filter |
| WebGLHeader.PadLong | src/js/core/webgl-header.js:98-100 | a long list is wrapped with its last and first `VISIBLE_DATA_COUNT` rows |
| WebGLHeader.PadShort | src/js/core/webgl-header.js:98-100 | a short list is padded using `slice`'s negative-start rule |
| WebGLHeader.FilterData | src/js/core/webgl-header.js:75-101 | the loop returns the padded shuffle of the surviving rows |
| WebGLHeader.LoadFallbackData | src/js/core/webgl-header.js:61-73 | the fallback loads iff it responded with a non-empty list |
| WebGLHeader.LoadData | src/js/core/webgl-header.js:46-59 | the primary list wins when usable, else the fallback; loading fails iff neither is usable |
| WebGLHeader.VisibilityEvent | src/js/core/webgl-header.js:153-159 | a hidden page pauses and a visible one resumes |
| WebGLHeader.WebGLHeader.constructor | src/js/core/webgl-header.js:12-23 | no data, no fallback shown, no controller started |
| WebGLHeader.WebGLHeader.Init | src/js/core/webgl-header.js:122-151 | resolves iff the assets loaded, some data loaded and the controller started; loaded data is filtered into `AppProps.data` even when the controller then throws; a data failure or a controller throw shows the fallback, an asset failure does not |
| WebGLController.FpsSample | src/js/managers/webgl-controller.js:310 | the sample is the frame rate rounded half-up to an integer |
| WebGLController.Record | src/js/managers/webgl-controller.js:311-312 | the window holds the newest samples, at most 10 |
| WebGLController.Monitor | src/js/managers/webgl-controller.js:305-329 | the window stays bounded, quality never rises or drops below 1, and it drops only in a step-down or an emergency |
| WebGLController.AverageTest | src/js/managers/webgl-controller.js:313-315 | an average below 52.5 is `2·sum < 105·count` |
| WebGLController.DecideDefaults | src/js/managers/webgl-controller.js:315-327 | under the default thresholds a full slow window steps down; the rule is given as a formula |
| WebGLController.WarningRule | src/js/managers/webgl-controller.js:315-327 | a full window averaging below the target counts a warning, and the 51st warning in a row steps the quality down and clears the window and warnings; any other sample clears the warnings |
| WebGLController.EmergencyUnreachable | src/js/managers/webgl-controller.js:315-325 | under the default thresholds the emergency outcome never happens |
| WebGLController.LowestIsFinal | src/js/managers/webgl-controller.js:306 | at the lowest quality the monitor does nothing |
| WebGLController.Run | src/js/managers/webgl-controller.js:305-329 | over many frames quality never rises |
| WebGLController.Refill | src/js/managers/webgl-controller.js:312-322 | starting from an empty window, fewer than 60 samples never step down |
| WebGLController.StepDownsAtLeastSixtyApart | src/js/managers/webgl-controller.js:312-322 | two step-downs are at least 60 frames apart |
| WebGLController.SlowRefill | src/js/managers/webgl-controller.js:312-322 | samples of at most 52 frames per second count one warning per call once the window is full, with no step-down before the 60th |
| WebGLController.SixtySlowSamplesStepDown | src/js/managers/webgl-controller.js:312-322 | 60 slow samples from an empty window lower the quality by exactly one |
| WebGLController.TierSettings | src/js/managers/webgl-controller.js:331-368 | each lower tier raises the raycast period by 2 and slows the index speed, and the top tier keeps the full speed; an unknown tier changes nothing |
| WebGLController.TierMonotone | src/js/managers/webgl-controller.js:331-368 | a lower tier is never faster and never raycasts more often than a higher one |
| WebGLController.MonitorWidensPickPeriod | src/js/managers/webgl-controller.js:305-368 | a monitor step never shortens the raycast period |
| WebGLController.VisibleInRangeLarge | src/js/managers/webgl-controller.js:782-784 | the index-window invariant when there is more data than the window |
| WebGLController.AdvanceVisible | src/js/managers/webgl-controller.js:782-784 | the visible index advances by `delta·speed` and wraps back to `VISIBLE_DATA_COUNT` near the end, staying in range |
| WebGLController.NextRaycast | src/js/managers/webgl-controller.js:852-853 | the raycast counter counts up modulo the trigger |
| WebGLController.RaycastPeriodic | src/js/managers/webgl-controller.js:852-853 | after n frames the counter is n mod trigger, so a raycast happens exactly every trigger frames |
| WebGLController.ShouldShowIsDistance | src/js/managers/webgl-controller.js:908-910 | a spike is shown iff its index lies within `maxIndexDistance` of the visible index |
| WebGLController.FirstQualifying | src/js/managers/webgl-controller.js:805-827 | the scan stops at the first hit that qualifies |
| WebGLController.Pick | src/js/managers/webgl-controller.js:805-827 | the pick is a qualifying hit, and there is none iff no hit qualifies |
| WebGLController.VisibleHits | src/js/managers/webgl-controller.js:758-768 | the hit list is discarded iff it is empty or the globe is in front |
| WebGLController.GlobeInFrontDiscardsPick | src/js/managers/webgl-controller.js:765-767 | with the globe in front, nothing is picked |
| WebGLController.WindowOnlyFiltersSpikes | src/js/managers/webgl-controller.js:808-812 | the visible window affects only spike hits |
| WebGLController.LineHitIgnoresWindow | src/js/managers/webgl-controller.js:808-812 | a line hit in front is picked whatever the window |
| WebGLController.FrameActions | src/js/managers/webgl-controller.js:799-848 | a raycast frame shows the pick or hides the card; dragging always ends with a hide |
| WebGLController.ShouldCancelClickIffOutsideBox | src/js/managers/webgl-controller.js:612-618 | a click is kept iff the pointer moved at most the tolerance (2 pixels) in both axes |
| WebGLController.WebGLController.constructor | src/js/managers/webgl-controller.js:78-145 | default thresholds at the top tier, with the window already holding the first sample, taken by the synchronous `update` that `startUpdating` runs at the end of `initBase`, and no warning; the visible index at `VISIBLE_DATA_COUNT`, the clock running |
| WebGLController.RunFromFirstSample | src/js/managers/webgl-controller.js:305-329 | monitoring from the state the constructor leaves is monitoring from an empty window with the first sample prepended |
| WebGLController.FirstStepDownAfterFiftyNine | src/js/managers/webgl-controller.js:305-329 | from the constructed controller, a slow first sample and 59 more slow samples step the tier down from regular: the sample taken during construction counts toward the first step-down |
| WebGLController.WebGLController.UpdateRenderQuality | src/js/managers/webgl-controller.js:331-368 | the settings become the current tier's settings |
| WebGLController.WebGLController.InitPerformanceEmergency | src/js/managers/webgl-controller.js:370-373 | the clock stops and the fallback is shown |
| WebGLController.WebGLController.StorageSum | src/js/managers/webgl-controller.js:313 | the loop sums the sample window |
| WebGLController.WebGLController.LowerQuality | src/js/managers/webgl-controller.js:317-322 | quality drops by one, but not below the lowest tier; the window and warnings reset and the tier settings apply |
| WebGLController.WebGLController.RecordSample | src/js/managers/webgl-controller.js:311-314 | the sample enters the window, and the average is taken over the new window |
| WebGLController.WebGLController.React | src/js/managers/webgl-controller.js:315-328 | the state, settings, clock and fallback follow the pure decision `Decide` |
| WebGLController.WebGLController.MonitorFps | src/js/managers/webgl-controller.js:305-329 | the state follows `Monitor`; the clock stops and the fallback shows only on an emergency; the raycast period never shortens |
| WebGLController.WebGLController.SetDragging | src/js/managers/webgl-controller.js:726-728 | a missing argument means dragging |
| WebGLController.WebGLController.ResetInteractionIntention | src/js/managers/webgl-controller.js:608-610 | remembers where the pointer went down |
| WebGLController.WebGLController.TestForDataIntersection | src/js/managers/webgl-controller.js:758-768 | the stored hits are the visible hits of the raycast |
| WebGLController.WebGLController.FindPick | src/js/managers/webgl-controller.js:805-827 | the loop returns `Pick` of the stored hits |
| WebGLController.WebGLController.PickFrame | src/js/managers/webgl-controller.js:799-840 | a raycast frame stores the visible hits and acts on their pick |
| WebGLController.WebGLController.AdvanceVisibleIndex | src/js/managers/webgl-controller.js:782-784 | the visible index follows `AdvanceVisible` |
| WebGLController.WebGLController.StepRaycast | src/js/managers/webgl-controller.js:852-853 | the raycast counter follows `NextRaycast` |
| WebGLController.WebGLController.Frame | src/js/managers/webgl-controller.js:782-853 | one clocked frame: advance the index, raycast only when the counter is 0, act, and step the counter |
| WebGLController.WebGLController.ClockedFrame | src/js/managers/webgl-controller.js:779-853 | a stopped clock does nothing; otherwise it is one `Frame` |
| WebGLController.WebGLController.HandleUpdate | src/js/managers/webgl-controller.js:777-856 | the frame-rate monitor runs first, then the clocked frame, if the monitor left the clock running |

## Left out

- Scene construction and rendering: geometries, materials, shaders, cameras, lights, textures and `renderer.render` draw pixels and prove nothing about the model.
- Trigonometry and distances: the lat/lon-to-vector conversion, the `distanceTo` tests and the arc curves are abstract predicates passed in as parameters. The model covers the decisions made from them, not their numbers.
- DOM and event wiring: `EventManager` subscriptions, the `IntersectionObserver`, and the `handleClick`, `handleTouchMove` and resize handlers are left out. The listener registry in `Controls` stands in for `addEventListener` and `removeEventListener`.
- Network and loading completion: the XHR and `TextureLoader` callbacks for completion and errors in `loader.js` (lines 70, 84, 103), `getData` (145-155) and the polling `setInterval` are not modelled. Only the dispatch and the progress records are. The promise `load` returns (loader.js:20-56) is never rejected and its `Promise.all(...).then` has no `catch`, so an asset that fails leaves `load`, `loadAssets` and `init` pending forever; `WebGLHeader.WebGLHeader.Init` reports that outcome as `resolved == false`. The polling `setInterval(this.update, 1000 / 30)` passes `update` unbound, so its `this` is not the loader; that is not modelled either.
- Nondeterminism: `Math.random`, `Date.now`, the three.js `Clock` and raycaster results are parameters.
- The `dispose` methods of `WebGLController`, `MergedPrEntity` (309-314), `DataInfo`, `Loader` (136-142) and `WebGLHeader` (171-182) only remove scene objects and DOM nodes, so they are not modelled. The controller's stopped clock is modelled as `clockRunning`.
- `WebGLHeader`: `loadAssets` (25-44), `trackPageVisibility`'s listener wiring (103-120) and the getters (161-169) are left out. Only the visibility decision is modelled.
- DataInfo.SetInfoCard: does not model how the time is formatted or how the user and repository URLs are built. The body text is modelled as a stamp parameter.
- Utils.Smoothstep: requires `max != min`. With `min == max` the source returns 0 below `min`, 1 above it and `NaN` at `value == min`, so the [0, 1] bound fails there; that case is not modelled. Utils.SmoothEnds shares the precondition.
- Controls.MouseFor: requires a parent of positive width and height. A zero-size parent, such as a hidden one, makes `setMouse` store an infinite or `NaN` coordinate, which is not modelled. The handlers that call it share the precondition.
- WebGLController.FpsSample: requires a positive elapsed time. Two calls within the same `Date.now` millisecond, or a clock that steps back, give `parseInt(Infinity)` (`NaN`) or a non-positive sample. A `NaN` sample makes every average of the next ten calls `NaN`, so each of those calls clears the warnings. Non-positive elapsed times and `NaN` samples are not modelled, and the sample window holds integers only. This includes the first sample, taken during construction right after `then` is set, which is the likeliest to fall within one millisecond: the constructor takes it as an integer parameter.
- JsValues.Trunc: models `parseInt` only for 0 and for numbers whose magnitude lies in [1e-6, 1e21). JavaScript prints numbers outside that range in exponent form, and `parseInt` stops at the `e`: `parseInt(1.5e-7)` is 1 and `parseInt(2e21)` is 2. `parseInt` of an infinity is `NaN`. None of these is modelled.
- MergedPrEntity.NextIndex: inherits the range of `JsValues.Trunc`. When the visible index is 0 and the advance lies strictly between 0 and 1e-6, the source parses the exponent form and starts the arc named by the advance's leading digit (if that arc exists); the model computes 0 and starts none.
- WebGLHeader.FilterData: fetched bodies are modelled as arrays of objects. A truthy body that is not an array, such as an object without `length`, passes the emptiness check in `loadData` (webgl-header.js:50); `filterData` then loops zero times and returns `[]`, so `init` goes on with empty data and no fallback. A `null` or `undefined` entry makes `item.gop` throw into the same `catch` as a controller failure. Neither case is modelled.
- Utils.Normalize: IEEE-754 rounding and division by zero (`max == min` gives `NaN` or `Infinity`) are not modelled; the function requires `max != min`. Utils.Map and Utils.MapRoundTrip share that precondition on their source range (and, for the round trip, on the target range).
- Controls.Controls.Update: returns the rotation angles it applies instead of multiplying three.js rotation matrices.
- WebGLController.WebGLController.HandleUpdate: the calls into `controls.update` and each entity's `update` are modelled separately, in their own modules. The card placement call at line 850 and the mobile mouse reset at line 839 are left out.
- Controls.Controls.constructor: assumes a fresh element with no listeners; `Controls.RegisteredOnFreshElement` shows that `addListeners` then registers exactly the nine bindings.
- Controls.Controls.Dispose: the nulling of `dragging`, `mouse`, `lastMouse`, `target`, `matrix`, `velocity` and both speed scalars (controls.js:163-170) is not modelled; those fields keep their values, and no later call on a disposed controller is modelled.
- MergedPrEntity.MergedPrEntity.Update: frame deltas are real numbers; `Math.ceil` and truncation are modelled explicitly where the source uses them.
- OpenPrEntity.DrawWindow: states its exact value only when the numbers fit in 32 bits, as `x | 0` does; otherwise only the bounds.
