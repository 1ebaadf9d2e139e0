# GithubCity: calendar conversion and tile render planning

GithubCity fetches a person's yearly GitHub contribution calendar and renders it
as a small 3D city: one grid row per weekday, one column per week, with grass,
roads and buildings stacked from storey assets. This project models, in Dafny,
the two parts of that program whose behaviour is integer logic:

- **The calendar-to-grid conversion** (`api.ts`, module `Api`). The calendar's
  weeks become a 7 x N grid. Rows are built by pushing the sentinel -1, and then
  every day writes its contribution count into row `weekday`, column `week`. The
  model keeps the source's shape: `SentinelGrid` builds the rows, `WriteWeek` does
  the writes of one week, and `GetConvertedContributions` runs both. The rows are
  sequence values: the loops grow them by appending and replace them by
  reassignment where the source writes in place (the source never aliases its
  rows, so nothing is lost by this). Each method is proved
  against its own specification: `SentinelGrid` against `IsSentinelGrid` (seven
  rows of `n` sentinels); `WriteWeek` against `LastCount`, the count of the last
  day of the week that falls on a given weekday, for column `i`, with every other
  column unchanged; and `GetConvertedContributions` against `ConvertedGrid`, the
  grid whose cell (r, i) is `LastCount` of week `i` on weekday r, or -1. A weekday outside
  0..6 makes the source's row lookup `undefined` and the write throw. The model
  returns that as a `Failure` that names the first such day.
- **Render planning for one tile and clearing the scene** (`scene.ts`, module
  `Scene`). Rendering a building, a road or a grass tile is modelled as the list
  of asset load requests it issues, in order. Each request records the asset, the
  name its callback gives the loaded object, and the integer inputs of the
  placement: the storey index, the extra shift, the rotation in degrees and the
  mirror flag. A building is capped at 35 storeys. It picks ground, floor or roof
  per storey and stops at the first storey whose URL is null or empty. A road
  picks entry 0..3 of the road asset list by its type. `ClearScene` walks the
  scene's children backwards and removes, in place, each one named Building,
  Road, Grass or Tree. The children are modelled as a sequence of names held by a
  `SceneGraph` object.

The files are `wrappers.dfy` (Option and Result), `api.dfy` and `scene.dfy`.

## Model

| member | source | states |
|---|---|---|
| `Api.GetConvertedContributions` | api.ts:41-60 | Fails exactly when some day's weekday is outside 0..6, and then names the first such day in visiting order. Otherwise returns `ConvertedGrid(contribs)`. An empty week list yields seven empty rows. |
| `Api.SentinelGrid` | api.ts:44-52 | Produces seven rows of `n` cells, every cell the sentinel -1. |
| `Api.WriteWeek` | api.ts:54-58 | After the writes of week `i`, cell (r, i) holds the last count of a day on weekday r, or its old value if there is none. Every other column is unchanged. Stops at the first day whose weekday names no row and returns its index; this happens exactly when such a day exists. |
| `Api.LastCount` | api.ts:55-57 | None exactly when no day falls on weekday r. Otherwise it is the count of a day on r that no later day on r follows, so later writes overwrite earlier ones. |
| `Api.ConvertedGrid` | api.ts:46-58 | The result has exactly 7 rows, each as long as the week list, and is seven empty rows for no weeks. |
| `Api.SentinelWhereNoDay` | api.ts:46-58 | A cell whose week has no day on its weekday keeps -1. |
| `Api.LastDayWins` | api.ts:55-57 | The cell equals the count of the last day of its week on its weekday, copied unchanged (0 and negative counts too; nothing is clamped). |
| `Api.CellComesFromADay` | api.ts:54-58 | A cell other than -1 holds the count of some day of its week on its weekday. |
| `Api.ColumnDependsOnItsWeek` | api.ts:54-58 | Column i depends on week i alone: two week lists of any lengths that both hold week i and agree on it give the same column i. |
| `Scene.LoadRequest.Name` | scene.ts:64-64 | Every object a render callback adds is named Building, Road, Grass or Tree (the names set at scene.ts:135, 183, 210 and 232), so a clear removes it once it is in the scene. A callback that fires after the clear is not covered (see the asynchronous loading line under "Left out"). |
| `Scene.StoreyCount` | scene.ts:111-112 | The number of storeys is min(value, 35) when the value is positive, and 0 otherwise. So it is exactly 35 for any value of 35 or more (40 gives 35), equals the value between 1 and 35, and never exceeds 35. |
| `Scene.StoreyKind` | scene.ts:113-118 | Storey 0 is ground. The top storey of a building taller than one is roof. Every storey strictly between is floor. A one-storey building has no roof. |
| `Scene.BuildingRotation` | scene.ts:124-147 | The rotation in degrees is always a multiple of 90 degrees (a cardinal direction). |
| `Scene.MirrorIsOneStepBack` | scene.ts:136-147 | The extra 270 degrees of a mirrored building equal one step of `dir` back, less a full turn. |
| `Scene.LShapeIsHalfTurned` | scene.ts:124-147 | An L-shaped building is turned 180 degrees further than any other type with the same `dir` and mirror. |
| `Scene.BuildingShift` | scene.ts:124-130 | The extra shift is equal in x and z, is 0 or 2, and is 2 exactly for an L-shaped building with `dir` 1. |
| `Scene.StoreyRequest` | scene.ts:113-122 | Storey 0 loads the ground URL, the top storey of a building taller than one loads the roof URL, and every storey in between loads the floor URL. The request is a building piece for storey k with the building's mirror flag. |
| `Scene.StoreysFrom` | scene.ts:112-119 | Searching from storey k, the plan stops at the first storey with a missing URL, or at the capped height. Every storey before the stop is loadable. |
| `Scene.PlannedStoreys` | scene.ts:111-119 | At most min(value, 35) storeys are requested, so never more than 35. None are requested when value is at most 0. |
| `Scene.RenderBuilding` | scene.ts:104-157 | Issues exactly `PlannedStoreys(b)` requests, and request k is storey k's request. It stops at the first storey whose URL is null or empty. |
| `Scene.PlannedStopsAt` | scene.ts:112-119 | If storeys below i are loadable and storey i is missing or is the top, exactly i storeys are requested. |
| `Scene.MissingStoreyStopsBuilding` | scene.ts:119 | A missing URL at storey k means no storey at or above k is requested. |
| `Scene.FullBuilding` | scene.ts:111-118 | With ground, floor and roof URLs all loadable, every storey up to the cap is requested. |
| `Scene.SingleStorey` | scene.ts:113-118 | A building of value 1 with a ground URL issues exactly one request, for the ground. |
| `Scene.RoadAsset` | scene.ts:166-171 | The source's chain of four type tests, followed by the null/empty guard, selects entry t of the road asset list exactly when t is in 0..3 and that entry exists and is not empty. Any other type, a missing entry or an empty entry selects nothing. |
| `Scene.RenderRoad` | scene.ts:159-191 | Issues at most one request. It issues one exactly when the type selects an asset; that request loads the asset and rotates by -90 * dir degrees. |
| `Scene.RenderGrass` | scene.ts:193-237 | Issues the grass request and then two tree requests, each loading an entry of the tree asset list. |
| `Scene.KeptHasNoClearable` | scene.ts:64-68 | After clearing, no child named Building, Road, Grass or Tree remains. |
| `Scene.KeptKeepsTheRest` | scene.ts:64-68 | Every other child remains, as many times as it occurred, and none of the deletable ones does. |
| `Scene.KeptAppend` | scene.ts:65-68 | Clearing distributes over concatenation, so the surviving children keep their relative order. |
| `Scene.KeptIdempotent` | scene.ts:63-69 | Clearing is idempotent: a second clear removes nothing. |
| `Scene.KeptUnchanged` | scene.ts:63-69 | A scene with no deletable child is left as it is. |
| `Scene.ClearScene` | scene.ts:63-69 | The backward, in-place removal leaves exactly `Kept` of the old children. |

## Left out

- algo.ts (`initializeTiles`, `findTiles`, `getTileTypes` and the tile types) is not part of this model. Building and road tiles are inputs that carry only the fields rendering reads.
- A load request records the asset's name, not the path it is loaded from. Every render loads it from `./assets/` followed by that name (scene.ts:122, 174, 202 and 222).
- `fetchContributions` (api.ts:29-38) is network I/O and JSON parsing; not modelled.
- main.ts is DOM and UI wiring: year selection, form submit, URL history, buttons and the STL download. The per-tile dispatch to the render functions and the floating-point grid-to-world coordinates are there too; not modelled.
- Camera, renderer, lighting, controls, post-processing, environment and animation (`createScene` and its helpers), `changeShadowPreset`, `setShadow` and `convertSceneToStlBlob` drive three.js and browser objects; not modelled.
- Floating-point positions (`y + i * FLOOR_HEIGHT * 2`, the base x/y/z a tile is drawn at) are not modelled. `FLOOR_HEIGHT` is not part of this model. A building request records its storey index and integer shift instead. Degrees are not converted to radians.
- Loading is asynchronous. The model gives the requests in the order they are issued, not the order in which objects reach the scene. An object whose load callback fires after `clearScene` (from an earlier render) reaches the scene after the clear and is not removed by it; the model does not capture that interleaving.
- `Scene.RenderGrass`: the tree choice and the tree offsets come from `Math.random`. The choices are parameters and the offsets are left out. The model requires each choice to index the tree list, so an empty tree list is not covered.
- Weekdays, counts, values, types and directions are integers. Fractional or NaN JavaScript numbers are not modelled, and neither are missing fields of the API's records.
