# Remote render synchronisation, modelled in Dafny

This project models two state machines of the itk-viewer packages.

The main one is `remoteMachine` (`packages/remote-viewport/src/remote-machine.ts`). It keeps a remote renderer in step with the viewer's renderer properties:

- density, camera pose and image are held in `rendererProps`;
- every partial update is merged into `rendererProps` and logged to `queuedRendererEvents`;
- on connection, the queue is replaced by a snapshot of all properties;
- while online, a render loop (`render` -> `sampleFps` -> `idle`) drains the queue into `stagedRendererEvents` each time it leaves `idle`, and sends that batch with the next render request.

The second is the image actor (`packages/viewer/src/image.ts`). It keeps one data range, one normalised colour range and one absolute colour range per image component:

- each component's data range only widens as images are built, while the number of components follows the latest image's ranges;
- a new component gets the normalised range [0.2, 0.8];
- a known component has its normalised range rescaled so that its absolute colour range stays;
- a `normalizedColorRange` event overwrites one component's normalised range in place.

Files:

- `wrappers.dfy`: `Option` and `Result`.
- `renderer.dfy` (module `Renderer`): the `RendererProps` record and its entries. It holds the object-spread merge (`Merge`), `getEntries` (`Entries`) and the "the log replays to the current properties" invariant (`Replays`), with their lemmas.
- `remote_machine.dfy` (module `RemoteMachine`): class `Remote`, whose fields are the machine's state and context, with one method per event.
  - Entering a state that invokes a service returns that invocation: `Connect` with the address, `RenderRequest` with the server and the staged batch (exactly the renderer's input), and `FetchFps` with no payload.
  - The service's completion is a later event with an opaque payload (`OnConnectDone`, `OnRenderDone`, `OnFpsDone`).
  - A ghost counter records outstanding render requests, and the invariant `Valid()` caps it at one.
- `color_ranges.dfy` (module `ColorRanges`): `computeColorRange`, `computeNormalizedColorRange` and the context updaters, as functions over exact reals.
- `image_machine.dfy` (module `ImageMachine`): class `ImageContext`. `dataRanges` and `colorRanges` are sequences that the event methods reassign. `normalizedColorRanges` is an array: `builtImage` replaces it with a fresh one, and `normalizedColorRange` writes one slot of it in place.

Scenario methods (`ConnectScenario`, `BurstScenario`, `FirstImageScenario`, `WideningScenario`, `FullSpanScenario`) derive short event sequences from the contracts alone.

## Behaviour as the code has it

These points follow the code, even where its comments suggest otherwise:

- The first render after connecting is requested with the initial staged batch, which is empty (`OnConnectDone` ensures `RenderRequest(Some(s), [])`). The snapshot queued by the connection goes out with the second request, once `idle` is left.
- `stagedRendererEvents` is not cleared when a render completes. It keeps the last batch until the next exit from `idle` overwrites it.
- Leaving `idle` moves the whole queue into the staged batch and empties the queue. The previous staged batch, which was already sent, is dropped. So `staged ++ queued` after the drain equals `queued` before it, not `staged ++ queued` before it. What is preserved across every event is that `staged ++ queued` replays to the current properties (`Valid()`).
- No transition leaves `online`, and no completion has a failure transition.
- An update whose values equal the current properties is still queued. The queue is extended by exactly the partial's entries in every state.
- In `idle`, an update always ends in `render`. Either the eventless guard fires, or, for an empty partial on an empty queue, the raised `render` event does.

## Model

| member | source | states |
|---|---|---|
| `Renderer.Field` | packages/remote-viewport/src/remote-machine.ts:14-16 | the entry `[k, p[k]]` always carries key `k` |
| `Renderer.Set` | packages/remote-viewport/src/remote-machine.ts:73-77 | overwriting one field sets that key's entry and leaves the other keys' entries as they were |
| `Renderer.Merge` | packages/remote-viewport/src/remote-machine.ts:73-77 | after `{...props, ...partial}` every key present in the partial has its last value there, and every other key keeps its old value |
| `Renderer.MergeConcat` | packages/remote-viewport/src/remote-machine.ts:72-78 | merging two partials one after the other equals merging their concatenation |
| `Renderer.Entries` | packages/remote-viewport/src/remote-machine.ts:18-19 | `getEntries` of the properties lists density, cameraPose and image in that order, each exactly once with its current value |
| `Renderer.ReplaysIsFixedPoint` | packages/remote-viewport/src/remote-machine.ts:79-82 | a log agrees with the properties (each logged key's last value is current) exactly when replaying it onto them changes nothing |
| `Renderer.UpdateKeepsReplays` | packages/remote-viewport/src/remote-machine.ts:72-82 | appending a partial to a log that agrees with the properties gives a log that agrees with the merged properties |
| `Renderer.SnapshotReplays` | packages/remote-viewport/src/remote-machine.ts:133-135 | any log followed by the full snapshot agrees with the properties |
| `Renderer.SnapshotRestores` | packages/remote-viewport/src/remote-machine.ts:133-135 | replaying the snapshot onto any properties whatever reproduces the snapshotted properties |
| `RemoteMachine.Remote.constructor` | packages/remote-viewport/src/remote-machine.ts:54-63 | the machine starts disconnected with density 30, the identity pose, image `data/aneurism.ome.tif`, both logs empty and no address, server or frame |
| `RemoteMachine.Remote.LeaveIdleForRender` | packages/remote-viewport/src/remote-machine.ts:199-205 | the exit action of idle stages the whole queue and empties it, and entering render issues one request carrying the server and the staged batch |
| `RemoteMachine.Remote.Settle` | packages/remote-viewport/src/remote-machine.ts:190-195 | idle with a non-empty queue goes on to render at once; otherwise nothing changes |
| `RemoteMachine.Remote.OnSetAddress` | packages/remote-viewport/src/remote-machine.ts:106-120 | in disconnected, stores the address, moves to connecting and invokes connect with it; in every other state changes nothing |
| `RemoteMachine.Remote.OnUpdateRenderer` | packages/remote-viewport/src/remote-machine.ts:69-88 | in any state, merges the partial into the properties; in idle, the queue plus the partial becomes the staged batch of a new request; elsewhere, the partial's entries are appended to the queue in supply order, and state and batch stay |
| `RemoteMachine.Remote.OnRender` | packages/remote-viewport/src/remote-machine.ts:196-205 | in idle, drains the queue into the staged batch and issues a render; in any other state changes nothing |
| `RemoteMachine.Remote.OnConnectDone` | packages/remote-viewport/src/remote-machine.ts:123-160 | in connecting, stores the server, replaces the queue with the snapshot and enters online in render; the staged batch, and so the first request's batch, is left as it was (empty); elsewhere nothing changes |
| `RemoteMachine.Remote.OnRenderDone` | packages/remote-viewport/src/remote-machine.ts:161-168 | in render, stores the frame, ends the one outstanding render and invokes fetchFps in sampleFps; elsewhere nothing changes |
| `RemoteMachine.Remote.OnFpsDone` | packages/remote-viewport/src/remote-machine.ts:171-195 | in sampleFps, enters idle and, when changes are queued, leaves it at once with the queue staged in a new request; elsewhere nothing changes |
| `RemoteMachine.Remote.OnViewportChanged` | packages/remote-viewport/src/remote-machine.ts:93-104 | a notification with a pose has exactly the effect of `updateRenderer({cameraPose})`: merged pose, queue or staged batch, state, issued request, online never left; one without a pose is an error that changes nothing |
| `ColorRanges.ColorRange` | packages/viewer/src/image.ts:10-18 | normalised 0 maps to the low and 1 to the high end of the data range; widths scale by the data range's width |
| `ColorRanges.ColorRangeWithinData` | packages/viewer/src/image.ts:10-18 | a normalised range within [0, 1] maps into the data range |
| `ColorRanges.NormalizedColorRange` | packages/viewer/src/image.ts:20-28 | for a data range of non-zero width, mapping the normalised range back gives the colour range it came from |
| `ColorRanges.NormalizeColorRange` | packages/viewer/src/image.ts:10-28 | for a data range of non-zero width, normalising the colour range of a normalised range gives it back |
| `ColorRanges.GrowRange` | packages/viewer/src/image.ts:80-87 | a component's new data range covers the incoming range and the prior one, if any, and each bound is one of theirs (min and max) |
| `ColorRanges.GrowDataRanges` | packages/viewer/src/image.ts:73-89 | without ranges the data ranges are unchanged; with ranges there is one per incoming component, covering the incoming and any old range tightly, and equal to the incoming range for a new component |
| `ColorRanges.GrowDataRangesIdempotent` | packages/viewer/src/image.ts:78-88 | building an image with the same ranges twice grows the data ranges no further |
| `ColorRanges.RescaleNormalizedRanges` | packages/viewer/src/image.ts:92-101 | one normalised range per data range; new components get [0.2, 0.8]; known ones map under the new data range to their old colour range |
| `ColorRanges.UpdateColorRangesLocal` | packages/viewer/src/image.ts:50-56 | recomputing the colour ranges after one component's normalised range is overwritten changes that component's colour range and no other |
| `ColorRanges.RescaleUnchangedData` | packages/viewer/src/image.ts:92-101 | against unchanged data ranges, rescaling gives back the normalised ranges the colour ranges came from |
| `ImageMachine.ImageContext.constructor` | packages/viewer/src/image.ts:61-66 | the context starts with no components |
| `ImageMachine.ImageContext.OnBuiltImage` | packages/viewer/src/image.ts:70-105 | grows the data ranges, rescales the normalised ranges into a fresh array, and keeps every known component's colour range; new components get the default; without ranges nothing observable changes; the per-component invariant is kept |
| `ImageMachine.ImageContext.OnNormalizedColorRange` | packages/viewer/src/image.ts:106-116 | overwrites in place only the given component's normalised range, recomputes only that component's colour range, and keeps the invariant |

## Left out

- The `fpsWatcher` region of `online` and the machine it invokes are not part of this model. That machine lives in a separate module (`@itk-viewer/viewer/fps-watcher-machine.js`), and the region runs concurrently. The sample sent from `sampleFps` is dropped, because the `sendTo` there is built inside an arrow function and not dispatched. The `console.log` is dropped too.
- The services `connect`, `renderer` and `fetchFps` appear only by name. Each is modelled as the invocation returned on entry to its state, plus a completion event with an opaque output. The source defines no failure transitions, so none are modelled. A completion that reaches a state other than the one that invoked it is ignored, as xstate ignores done events of stopped invocations.
- The inputs of `connect` and `fetchFps` are cut down. `connect` receives `{ context }` and `fetchFps` the whole context (remote-machine.ts lines 127-129 and 175), but `Connect` carries only the address and `FetchFps` carries nothing. Only the renderer's input is modelled in full.
- The viewport subscription is modelled only as the callback's effect (`OnViewportChanged`). The `viewport` context field, subscription teardown and the reading of the camera through actor snapshots are not modelled. `ReadonlyMat4` is modelled as a sequence of reals, of which only the identity is ever built. `server` and `frame` are type parameters with no structure.
- `image` in the image actor's context (a `MultiscaleSpatialImage`) is left out. Only the `ranges` of a built image are used.
- Numbers are exact reals. IEEE-double rounding, NaN and infinities are not modelled. The `±Infinity` sentinel for a component with no prior data range is modelled as "no prior range", which gives the same result for finite bounds.
- `ImageMachine.ImageContext.OnBuiltImage` requires every component whose normalised range is rescaled to have a new data range of non-zero width. For a degenerate range, the source divides by zero and stores NaN or infinite bounds.
- `ColorRanges.RescaleNormalizedRanges` and `ColorRanges.NormalizedColorRange` carry the same non-zero-width precondition, for the same reason.
- `ImageMachine.ImageContext.OnNormalizedColorRange` requires `component < |dataRanges|`. For an index beyond the end, JavaScript would leave holes in the array and `updateColorRanges` would ignore the extra slot.
- A partial update is modelled as its entries in supply order. Any sequence is accepted, and a key that appears twice takes its last value, whereas a JavaScript object has each key at most once.
- `remote-viewport.ts`, `example.ts`, the Lit elements under `packages/element`, `addTooltip.ts` and `view-2d.ts` are not part of this model. They are network, DOM and UI code outside the two machines.
