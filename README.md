# Dashboard core, modelled in Dafny

The dashboard is a Next.js page with three parts:

- a six-axis **radar chart**;
- **top and bottom graph nodes** with a carousel of text and image-text nodes between them, joined by **connector lines**;
- a small JSON API that edits a module-level, in-memory **page store**.

This project models the core logic of that system and proves its properties.

- `js_values.dfy` (`JsValues`): the JavaScript values the routes and the store work on. Request bodies, stored items and graph nodes are JSON objects. It models the operations the code uses: `obj.key`, truthiness, `typeof`, `===` on primitives, the `in` operator (a `TypeError` on `undefined`, `null` and primitives) and object spread.
- `page_store.dfy` (`PageStore`): the store as a class with one field per part of `globalPageData`. It has the four field setters and the add, delete and update of carousel items. `getPageData` returns a deep copy, so the model returns the store's contents as a value (`PageData`).
- `http.dfy` and the six `update_*`/`add_*`/`delete_*` files: the POST handlers. Each validates its body and answers 400, 404, 500 or 200. It changes the store only on success.
- `page.dfy` (`Page`): the client page's pure logic:
  - the two `setCarouselItems` updaters that keep a locally varying confidence score on the first text node;
  - the carousel-ref array kept in step with the item count;
  - the chart-size formula;
  - the loading guard.
- `node_connections.dfy` (`NodeConnections`): `calculateLines`, a loop proved against the specification function `ConnectorLines`, and the line state it replaces.
- `radar_chart.dfy` (`RadarChart`) covers three things:
  - the arity guard;
  - the animation effect and its frames, as a class holding the component's state, refs and pending browser frame;
  - the geometry, as a per-axis loop plus the vertex and ring functions.

  `cos`/`sin` of the six axis angles are six given direction vectors, so every point is `center + r * dir`.

Behaviour the model keeps as the code has it:

- The add route stores the body's fields at the top level of the item, next to a fresh `id`. It never puts them under `props`.
- The update route passes the unchecked `body.props` to the store. There, `'promptText' in newProps` (for a text node) or `'inputText' in newProps` (for an image-text node) throws when `props` is missing or is a primitive, and the route answers 500 with the store unchanged.
- The store's update leaves an item as it was when the props name the other kind's key. It also leaves the item unchanged for any type other than the two node kinds.
- The radar route's `const { data } = body` throws on a JSON `null` body, giving a 500. There is no length check on the data.
- The chart's effect cancels the pending frame on every run. It schedules a new frame only when the data differs by value. A re-run with equal data, for example after a change of `maxValue` alone, therefore stops an animation in flight where it stands.
- The page's confidence sync reads `props.confidenceScore` of the first text node. It throws when that node's `props` are absent or `null`. An item created through the add route has no `props` unless its request body carried a `props` key.

## Model

| member | source | states |
|---|---|---|
| JsValues.HasProperty | app/lib/page-store.ts:130-133 | for the named keys the store tests (`promptText`, `inputText`), `key in v` is defined exactly on objects and arrays (otherwise a TypeError), and true exactly for objects holding the key as an own property |
| JsValues.Spread | app/lib/page-store.ts:131 | `{...v}` copies an object's fields; an array's or a string's elements under their decimal indices and no other keys; nothing for `undefined`, `null`, numbers and booleans |
| JsValues.IndexedFields | app/lib/page-store.ts:131 | spreading an array puts every element under its decimal index, and those indices are the only keys |
| JsValues.NatToString | app/components/NodeConnections.tsx:60 | `${index}` is a non-empty string of decimal digits |
| JsValues.ParseNatToString | app/components/NodeConnections.tsx:60 | the decimal rendering of an index reads back to the same index |
| JsValues.NatToStringInjective | app/components/NodeConnections.tsx:60-66 | distinct indices render to distinct strings |
| PageStore.WithoutId | app/lib/page-store.ts:122-125 | the filtered list holds exactly the items whose id differs, is no longer, and contains no item with that id |
| PageStore.WithoutIdConcat | app/lib/page-store.ts:123 | filtering distributes over concatenation, so kept items keep their order |
| PageStore.WithoutAbsentId | app/lib/page-store.ts:123 | deleting an id no item carries changes nothing |
| PageStore.WithoutIdIdempotent | app/lib/page-store.ts:122-125 | deleting twice equals deleting once |
| PageStore.UpdateItem | app/lib/page-store.ts:128-141 | the per-item callback throws exactly for a matching text or image-text node whose request `newProps` do not support `in`; it keeps id and type; items with another id, or of a type other than the two node kinds, come back unchanged |
| PageStore.UpdateItems | app/lib/page-store.ts:127-143 | the `map` succeeds exactly when no item's callback throws, and then returns each item's result in place |
| PageStore.UpdateItemsKeepsShape | app/lib/page-store.ts:128-141 | an accepted update keeps the length, every id and type, and every item with another id |
| PageStore.MismatchedPropsRefused | app/lib/page-store.ts:129-138 | a text node given `promptText`, or an image-text node given `inputText`, stays as it was |
| PageStore.Merged | app/lib/page-store.ts:131-134 | the merged props hold every own property of `newProps`, every other property of the old props, and nothing else; keys outside `props` are unchanged |
| PageStore.MatchingPropsMerged | app/lib/page-store.ts:130-135 | otherwise, for object or array `newProps` and whatever the old props, the update is that merge; an item without props (or with null ones) gets exactly the properties of `newProps`; old and new object props give their union, the new winning |
| PageStore.Store.GetPageData | app/lib/page-store.ts:91-94 | the copy equals the store by value, field by field |
| PageStore.Store.constructor | app/lib/page-store.ts:56-88 | the store starts with the initial labels, values, graph nodes and single text node |
| PageStore.Store.UpdateRadarData | app/lib/page-store.ts:96-99 | only the radar values change, to the new ones; the returned copy equals the new store |
| PageStore.Store.UpdateRadarLabels | app/lib/page-store.ts:101-104 | only the labels change; the returned copy equals the new store |
| PageStore.Store.UpdateTopGraphNode | app/lib/page-store.ts:106-109 | only the top node changes; the returned copy equals the new store |
| PageStore.Store.UpdateBottomGraphNode | app/lib/page-store.ts:111-114 | only the bottom node changes; the returned copy equals the new store |
| PageStore.Store.AddCarouselItem | app/lib/page-store.ts:116-120 | the item is appended and nothing else changes |
| PageStore.Store.DeleteCarouselItem | app/lib/page-store.ts:122-125 | the items become the filtered list and nothing else changes |
| PageStore.Store.UpdateCarouselItem | app/lib/page-store.ts:127-143 | on a throw nothing changes; otherwise only the items change, to the mapped list |
| AddCarouselNode.IsValidCarouselItemData | app/api/add-carousel-node/route.ts:5-21 | only objects whose `type` is one of the two node kinds pass |
| AddCarouselNode.ValidBodyShape | app/api/add-carousel-node/route.ts:5-21 | a body is valid exactly when it is an object of one of the two node kinds carrying that kind's required and optional fields |
| AddCarouselNode.PropsKeyIgnored | app/api/add-carousel-node/route.ts:5-21 | validation reads top-level fields only; a `props` key makes no difference |
| AddCarouselNode.NestedPropsRejected | app/api/add-carousel-node/route.ts:7-12 | a text node whose fields sit under `props` is rejected |
| AddCarouselNode.NewItem | app/api/add-carousel-node/route.ts:31-34 | the new item has the body's keys plus `id`, the generated id, and every other field of the body |
| AddCarouselNode.Post | app/api/add-carousel-node/route.ts:23-37 | invalid body: 400 and the store unchanged; valid: the new item is appended and echoed with 200 |
| UpdateCarouselNode.IsValidCarouselItem | app/api/update-carousel-node/route.ts:5-21 | only objects with a string `id` and one of the two node kinds as `type` pass |
| UpdateCarouselNode.SameChecksAsAdd | app/api/update-carousel-node/route.ts:5-21 | the update check is exactly the add check plus a string `id` |
| UpdateCarouselNode.AddedItemPassesUpdateCheck | app/api/update-carousel-node/route.ts:5-21 | every item the add route stores passes the update route's check |
| UpdateCarouselNode.Post | app/api/update-carousel-node/route.ts:23-43 | 400 for an invalid body, 404 for an unknown id, 500 when the store's update throws, else the store's update and 200 echoing the body; only success changes the store |
| DeleteCarouselNode.HasStringId | app/api/delete-carousel-node/route.ts:12 | a body passes only when it is an object holding a string `id` |
| DeleteCarouselNode.DeletedMessage | app/api/delete-carousel-node/route.ts:26 | the success message contains the deleted id after its prefix |
| DeleteCarouselNode.Post | app/api/delete-carousel-node/route.ts:8-26 | 400 without a string id, 404 for an unknown id, else the item is removed (no item with that id remains) and 200 |
| UpdateRadarData.IsNumberArray | app/api/update-radar-data/route.ts:10 | `data` passes exactly when it is the JSON array of some list of numbers |
| UpdateRadarData.EchoRoundTrip | app/api/update-radar-data/route.ts:14-15 | the echoed array is exactly the one sent |
| UpdateRadarData.Post | app/api/update-radar-data/route.ts:5-23 | 500 for a `null` body, 400 unless `data` is an array of numbers (of any length), else the store's values become `data` and are echoed with 200 |
| UpdateTopGraphNode.IsValidGraphNodeBody | app/api/update-top-graph-node/route.ts:7-9 | a body passes only when it is an object holding `imageUrl` and `title` |
| UpdateTopGraphNode.ValidGraphNodeBodies | app/api/update-top-graph-node/route.ts:7-9 | only objects pass, and string `imageUrl` and `title` suffice |
| UpdateTopGraphNode.Post | app/api/update-top-graph-node/route.ts:4-11 | 400 and no change for an invalid body, else the top node becomes the body and 200 |
| UpdateBottomGraphNode.Post | app/api/update-bottom-graph-node/route.ts:4-11 | 400 and no change for an invalid body, else the bottom node becomes the body and 200 |
| Page.WithConfidence | app/page.tsx:111-112 | the props get the confidence score and keep every other own property of the old props; object props have the score added or replaced, absent or null props become `{confidenceScore}`; every key outside `props` is unchanged |
| Page.MergeFetched | app/page.tsx:107-115 | the result has the fetched length and the fetched items after the first; the first keeps the local score exactly when it is the same text node as before |
| Page.MergeReplacesOnlyConfidence | app/page.tsx:109-112 | the merge changes only `confidenceScore` in the first item's props: object props keep all else, absent or null props become `{confidenceScore}` |
| Page.SyncConfidence | app/page.tsx:150-162 | fails exactly when the first item is a text node with absent or null props; otherwise the first text node ends with the local score, keeps its other keys and other props, and the rest is unchanged; a list whose first item already has the score comes back as it was |
| Page.SyncConfidenceIdempotent | app/page.tsx:151-161 | a second sync changes nothing |
| Page.SyncAfterMergeIsNoOp | app/page.tsx:107-161 | after a merge that kept the local score, the sync is a no-op |
| Page.ResizedRefs | app/page.tsx:135-139 | the ref array gets the item count, keeps the refs below it, and is null past the old end |
| Page.ResizeToSameLength | app/page.tsx:136-138 | resizing to the current length changes nothing |
| Page.ResizeTwice | app/page.tsx:136-138 | shrinking forgets: two resizes keep only refs below both lengths |
| Page.NodeRefs.constructor | app/page.tsx:89 | the ref array starts empty |
| Page.NodeRefs.SyncLength | app/page.tsx:135-139 | the array becomes the resized one |
| Page.NodeRefs.Attach | app/page.tsx:243 | the slot gets the element; a write past the end grows the array with null holes; other slots keep their refs |
| Page.ChartSize | app/page.tsx:166-168 | the size is the least of 400 and the two window dimensions over 2.5 |
| Page.PageView | app/page.tsx:193-199 | the loading view shows exactly while either graph node is missing |
| NodeConnections.GetCenter | app/components/NodeConnections.tsx:44-50 | the point is equally far from a rectangle's left and right edges and from its top and bottom, in container coordinates |
| NodeConnections.ConnectorLines | app/components/NodeConnections.tsx:55-71 | at most two lines per ref, each starting at the top or the bottom graph node's center |
| NodeConnections.LineCount | app/components/NodeConnections.tsx:55-71 | two lines per present carousel ref; null refs are skipped |
| NodeConnections.LinesAt | app/components/NodeConnections.tsx:55-71 | lines follow carousel order, top line first, from each graph node's center to the carousel node's center |
| NodeConnections.TopAndBottomIdsDiffer | app/components/NodeConnections.tsx:60-66 | a top-line id never equals a bottom-line id |
| NodeConnections.IdsInjective | app/components/NodeConnections.tsx:60-66 | ids of one kind differ for different indices |
| NodeConnections.IdsBelow | app/components/NodeConnections.tsx:55-71 | the first n refs produce no id with an index of n or more |
| NodeConnections.LineIdsDistinct | app/components/NodeConnections.tsx:55-71 | all line ids (React keys) of one pass are distinct |
| NodeConnections.LinesAreContainerLocal | app/components/NodeConnections.tsx:44-50 | moving every node together with the container leaves every line unchanged |
| NodeConnections.BuildLines | app/components/NodeConnections.tsx:41-71 | the loop builds exactly `ConnectorLines` for all refs, two per present ref |
| NodeConnections.OneNodeScenario | app/components/NodeConnections.tsx:44-71 | one resolved carousel node gives exactly `line-top-0` and `line-bottom-0` at the expected centers |
| NodeConnections.NullRefScenario | app/components/NodeConnections.tsx:55-71 | a null ref is skipped and the next node keeps its own index in its ids |
| NodeConnections.Connections.constructor | app/components/NodeConnections.tsx:33 | no lines at first |
| NodeConnections.Connections.CalculateLines | app/components/NodeConnections.tsx:36-73 | with any ref missing the old lines stay; otherwise the lines are replaced by the full computed list |
| NodeConnections.Connections.Render | app/components/NodeConnections.tsx:105-107 | nothing is drawn exactly when there are no lines |
| RadarChart.StartVector | app/components/RadarChart.tsx:36-40 | the animation starts from the values on screen or from zeros, and from the values on screen whenever the data changed by value |
| RadarChart.StartsFromZerosUnlessChanged | app/components/RadarChart.tsx:38-40 | without a previous run, or with unchanged data, both branches of the start choice give zeros |
| RadarChart.RestartIsContinuous | app/components/RadarChart.tsx:36-52 | after a change of data the first frame shows exactly what was on screen |
| RadarChart.Progress | app/components/RadarChart.tsx:47 | progress is the elapsed fraction of 500 ms until it reaches 1, which it does exactly from 500 ms on; it is never above 1 and not negative once time has passed |
| RadarChart.Lerp | app/components/RadarChart.tsx:49-52 | progress 0 gives the start value and progress 1 the target |
| RadarChart.LerpBetween | app/components/RadarChart.tsx:49-52 | one axis's value lies between its start and its target |
| RadarChart.Interpolate | app/components/RadarChart.tsx:49-52 | one value per axis |
| RadarChart.InterpolateBetween | app/components/RadarChart.tsx:49-52 | for progress in [0, 1] every axis's value lies between its start and its target |
| RadarChart.InterpolateEndpoints | app/components/RadarChart.tsx:47-58 | progress 0 shows the start values, progress 1 the target |
| RadarChart.InterpolateApproachesTarget | app/components/RadarChart.tsx:47-52 | a larger progress is never farther from the target than a smaller one, and never overshoots it |
| RadarChart.ProgressMonotone | app/components/RadarChart.tsx:46-47 | progress never decreases as time passes |
| RadarChart.LaterFrameCloser | app/components/RadarChart.tsx:45-52 | a later frame is never farther from the target than an earlier one |
| RadarChart.Chart.constructor | app/components/RadarChart.tsx:31-33 | the values shown start at zero; both refs are unset and no frame is pending |
| RadarChart.Chart.RunEffect | app/components/RadarChart.tsx:35-70 | pending frame cancelled; a new one scheduled with the start vector exactly when the data is new or changed by value; previous data recorded; shown values untouched |
| RadarChart.Chart.Cleanup | app/components/RadarChart.tsx:72-76 | no frame remains pending |
| RadarChart.Chart.OnFrame | app/components/RadarChart.tsx:45-60 | before the end: the interpolated values and one new frame; at the end: exactly the target and no frame |
| RadarChart.AtMostOnePendingFrame | app/components/RadarChart.tsx:62-67 | the chart never holds more than one pending frame |
| RadarChart.Normalize | app/components/RadarChart.tsx:84 | for a positive maximum the result is in [0, 1]: 0 at or below zero, 1 at or above the maximum, value over maximum in between |
| RadarChart.VertexPoint | app/components/RadarChart.tsx:82-86 | a value at or below zero puts the vertex on the center, one at or above the maximum on the axis end |
| RadarChart.VertexPoints | app/components/RadarChart.tsx:82-88 | one vertex per value, each the vertex of its axis |
| RadarChart.Round | app/components/RadarChart.tsx:120 | the displayed number is within one half of the value, halves rounded up |
| RadarChart.ValueTextRadius | app/components/RadarChart.tsx:113-116 | the value text sits at most 12 past its vertex and at least 25 inside the labels, and at one of the two |
| RadarChart.AxisGeometry | app/components/RadarChart.tsx:96-121 | the loop produces six axis lines, label points and value text points, each the one of its axis |
| RadarChart.HexagonPoints | app/components/RadarChart.tsx:127-132 | a ring's six corners, each on its axis at the ring's radius |
| RadarChart.LastStepIsFullScale | app/components/RadarChart.tsx:125-141 | only the tenth step has scale exactly 1 |
| RadarChart.RingAt | app/components/RadarChart.tsx:124-141 | step k has scale (k+1)/10 and is solid exactly when it is the last step, otherwise dashed "2,4" |
| RadarChart.BackgroundRings | app/components/RadarChart.tsx:123-144 | ten rings with scales (k+1)/10, each the hexagon at radius times its scale; only the outermost is solid, the rest dashed "2,4" |
| RadarChart.RingsNested | app/components/RadarChart.tsx:124-136 | ring scales strictly increase, so ring keys are distinct |
| RadarChart.RingsMarkTenths | app/components/RadarChart.tsx:124-132 | a value of scale times the maximum lands on that ring, and the outermost ring passes through the axis ends |
| RadarChart.TextAnchor | app/components/RadarChart.tsx:175 | "middle" exactly within 1e-6 of the center, "end" exactly to its left, "start" exactly to its right |
| RadarChart.LabelAnchors | app/components/RadarChart.tsx:104-108 | on a hexagon, the vertical axes' labels are centred, the right-hand ones start and the left-hand ones end |
| RadarChart.AnchorMirror | app/components/RadarChart.tsx:202 | mirror-image points get mirror-image anchors |
| RadarChart.Render | app/components/RadarChart.tsx:26-144 | nothing unless there are six values and six labels; otherwise the vertices, axes, labels, value texts and rings above |

## Left out

- Trigonometry and floating point: `Math.cos`/`Math.sin` become six given direction vectors, numbers are exact reals, and IEEE rounding is not modelled. `JSON.stringify` equality of number arrays is sequence equality.
- SVG output: the string formatting of points (`${x},${y}`, `join`), of value labels (`${value}/${maxValue}`) and of ring keys, plus colours and the other markup attributes.
- The clock and the browser's frame scheduler are parameters: `Date.now()` is `now`, and the handle `requestAnimationFrame` returns is `handle`/`next`. The browser's pending frames are the `pending` field.
- React itself: rendering, state batching and hook ordering. The chart's class assumes six data values throughout. The component returns before its hooks when the arity is wrong, which breaks React's hook order if the arity changes between renders; that case is not modelled.
- `getBoundingClientRect`, and the resize and scroll listeners that re-run `calculateLines`. Rectangles are inputs, and each listener call is one `CalculateLines` call.
- `fetch`, the 5-second polling and the fetch's error handling in the page. The fetched data is an input to `MergeFetched`.
- `Math.random()` for the local confidence score. The score is an input.
- `uuidv4()`: the add route takes the generated id as a parameter.
- Unparseable JSON bodies (`SyntaxError`, answered 400). Every body in the model is already parsed JSON.
- The `error` detail field of 500 responses.
- Logging: every `console.warn` and `console.error` call is dropped. This covers the store's mismatch warning, the chart's arity warning, the page's fetch error and the routes' `catch` blocks. None of them affects a returned value or the state.
- `getPageData`'s `JSON.parse(JSON.stringify(...))` copy is treated as the identity on the store's contents. The model has no `undefined`, `NaN` or functions, so there is nothing for the copy to drop or change.
- The order of object keys, because objects are finite maps.
- The read-only `GET /api/page-data` handler, a wrapper around `getPageData` (`PageStore.Store.GetPageData`).
- Presentational components (`GraphNode`, `TextNode`, `ImageTextNode`, `NodeCarousel`), the API test client and the jest configuration.
- The chart test at `app/components/RadarChart.test.tsx:72-79` expects four `circle` elements with `fill="none"`. The chart draws ten hexagon polygons and no such circles, so that expectation is not carried over.
- Strings are sequences of Unicode code points. JavaScript indexes strings by UTF-16 code units, so spreading a string with characters outside the Basic Multilingual Plane (`JsValues.Characters`) gives different keys in the model.
- RadarChart.Normalize: requires `maxValue != 0`. In JavaScript `0 / 0` is `NaN`, a floating-point value with no counterpart among the reals. `VertexPoint`, `VertexPoints`, `AxisGeometry` and `Render` inherit this requirement.
- RadarChart.LabelAnchors: states the anchors only for directions shaped like the hexagon's (vertical top and bottom axes, mirrored sides) and for a chart large enough that the side labels leave the 1e-6 band.
- RadarChart.Interpolate: its own contract gives only the length. Its bounds, end points and monotonicity are stated by `InterpolateBetween`, `InterpolateEndpoints` and `InterpolateApproachesTarget`.
