# Point-cloud comparison viewer: a Dafny model

The viewer (`main.js`) is a browser page that shows a grid of WebGL canvases.
Each canvas renders one ASCII PLY point cloud:

- a top row with one cloud (`top`);
- a BASE row (`B`) and an OURS row (`O`), four time points each (15, 30, 45, 60);
- a coverage pair (`C`).

Rows `top`, `B` and `O` share one camera; `C` has its own. A camera is a yaw,
a pitch and a distance `z`. Dragging on a canvas rotates the camera of the
row under the pointer. The mouse wheel moves that camera's distance. Two
buttons reset the cameras. The initial distances are calibrated from the
clouds: twice the largest distance of any point from the origin, behind the
object.

This project models and proves four parts of that script:

- `text.dfy` (module `Text`): the string operations the loader relies on,
  with JavaScript's meaning. These are `trim`, `startsWith`, and `split` by
  a regular expression that matches runs of separators.
- `ply.dfy` (module `Ply`): `loadPLY`. A header scan finds the vertex count
  and the first data line (a method with a loop and a `break`). The buffers
  are then allocated by the rule of `new Float32Array(nv * 3)` (truncation
  towards zero, a `RangeError` at -1 or below), and a row loop fills them
  (a method over `array<real>`). A whole count `n` gives `3n` numbers per
  buffer. A count in (-1/3, 0) gives empty buffers and runs no row. A
  positive fractional count runs one row more than the buffers have room
  for, so the last row throws. Both methods are proved equal to a
  functional specification, `DecodeSpec`, whose outcomes are proved in
  lemmas.
- `calibration.dfy` (module `Calibration`): the path lists, the middle-path
  choice, and the `maxR` loop of `setInitialZoom` and `loadCoverage`. The
  loop is proved to compute a maximum.
- `registry.dfy` (module `Registry`): the four parallel viewer registries,
  `glCtx`, `program`, `uniLoc` and `nPoints`, and the draws `render` issues
  over them.
- `page.dfy` (module `Page`): the page's global state as the class
  `Page.Viewer`, one method per listener and loader:
  - `pointerenter`, `pointerleave`, `pointerdown`, `pointermove` and
    `pointerup`;
  - both window `wheel` listeners;
  - both reset buttons;
  - `loadTopRow`, `loadRow`, `setInitialZoom`, `loadHouse` and
    `loadCoverage`;
  - `render`.

  A class invariant, `Valid`, says that each canvas is bound at most once, and
  that exactly the canvases with a loaded slot are bound.

`Number(...)` is the parameter `num: string -> real` and `Math.hypot` is the
parameter `hypot`. Both are left uninterpreted, apart from `hypot` being
non-negative. A loader receives what the browser produced instead of
performing I/O. A `SlotSource` holds `loadPLY`'s outcome together with the
WebGL handles of `initGL` and `setupViewer`. A `PlyOutcome` is `None` when
the fetch failed, and otherwise the result `Ply.Decode` computes for the
fetched text (`Ok` with the cloud, or `Err` with the reason it throws).

The four registries are always written together. So the model bundles them
into one optional `Viewport` per slot (context, program, uniform locations,
point count).

## Model

| member | source | states |
|---|---|---|
| Text.StartsWith | main.js:182 | `startsWith`: true exactly when the line is the prefix followed by something |
| Text.Split | main.js:179 | `split` by a separator run: at least one piece, and no piece contains a separator |
| Text.SplitJoin | main.js:179 | splitting undoes joining non-empty, separator-free pieces with one separator |
| Text.TrimStart | main.js:179 | dropping leading white space keeps a suffix, drops only white space, and leaves no white space in front |
| Text.TrimEnd | main.js:183 | dropping trailing white space keeps a prefix, drops only white space, and leaves no white space at the end |
| Text.Trim | main.js:179 | `trim` returns the slice left after a run of white space is dropped at each end, and neither end of the slice is white space |
| Text.TrimKeeps | main.js:183 | a string with no white space at either end trims to itself |
| Text.TrimIdempotent | main.js:179 | trimming twice is trimming once |
| Text.Lines | main.js:179 | `text.trim().split(/\n+/)` always yields at least one line |
| Text.Fields | main.js:182 | `line.split(/\s+/)` always yields at least one field |
| Ply.CountOfVertexLine | main.js:182 | on a line `element vertex w` the line is a vertex line and the count is `Number(w)` |
| Ply.FindFirst | main.js:180-183 | the first line at or after `i` that satisfies the predicate, and no earlier line of the range does |
| Ply.FindLast | main.js:180-182 | the last line below the bound that satisfies the predicate, or none exists |
| Ply.ScanHeader | main.js:180-184 | the header loop, with its `break`, returns exactly `HeaderStart` and `HeaderCount` |
| Ply.HeaderStartMeaning | main.js:183 | data starts right after the first `end_header` line; it starts at 0 iff no line trims to `end_header` |
| Ply.HeaderCountMeaning | main.js:182 | the count is that of the last `element vertex` line read up to and including the marker |
| Ply.HeaderCountDefault | main.js:180 | with no vertex line before the marker the count stays 0 |
| Ply.Truncate | main.js:185 | truncation towards zero: the nearest integer on the side of zero |
| Ply.Float32Length | main.js:185 | `new Float32Array(x)` throws iff `x <= -1`, and otherwise allocates `x` truncated towards zero |
| Ply.LoopTurns | main.js:186 | `for (i = 0; i < nv; i++)` runs exactly the turns below `nv` |
| Ply.VertexCountMeaning | main.js:185-186 | a count yields `n` vertices iff the buffers get `3n` slots and the loop runs `n` turns: for a whole non-negative count, and for a count in (-1/3, 0) with `n = 0` |
| Ply.AllocationFits | main.js:185-191 | the buffers hold between `3 * turns - 3` and `3 * turns` slots, so only the last turn can overrun |
| Ply.RowValues | main.js:187 | `split(/\s+/).map(Number)` gives at least one value per row |
| Ply.DataRows | main.js:186-187 | the data rows are exactly `n` rows, row `i` taken from line `start + i` |
| Ply.BuffersAt | main.js:186-191 | both buffers hold 3 numbers per row; row `i` puts up to three fields (missing ones 0) into the positions, and fields 3..5 over 255 into the colours iff the row has six fields, else 0 |
| Ply.Allocate | main.js:185-191 | after the header, every cloud the allocation and the row loop return is well shaped |
| Ply.DecodeLines | main.js:178-193 | every cloud `loadPLY` returns for given lines is well shaped |
| Ply.DecodeSpec | main.js:177-193 | every cloud `loadPLY` returns for a fetched text is well shaped |
| Ply.DecodeOutcome | main.js:177-193 | the decode returns iff the count yields whole vertices and enough lines follow the data start, with `3 * count` numbers per buffer; the allocation throws iff `nv * 3 <= -1`; a row is missing iff the loop outruns the lines; the buffers overrun iff the lines are there but the count is fractional |
| Ply.FillRow | main.js:188-190 | one row writes exactly slots `3i .. 3i+3` of both arrays and leaves every other slot of both unchanged |
| Ply.ReadRows | main.js:186-191 | the row loop fills the arrays to the specification's buffers, or reports the first missing line, or the overrun of the last row |
| Ply.AllocateRows | main.js:185-191 | the allocation and the row loop equal `Allocate` |
| Ply.Decode | main.js:177-193 | `loadPLY` on a fetched text equals `DecodeSpec` |
| Calibration.BuildPaths | main.js:49-52 | one path per time point |
| Calibration.MiddleIndex | main.js:230 | `Math.floor(len / 2)` is an index of a non-empty list and the lower middle |
| Calibration.MiddlePathIsT45 | main.js:230 | the calibrating cloud is the t = 45 file of the house's list |
| Calibration.MaxNormIsMaximum | main.js:231-235 | the `Math.max` fold is non-negative, bounds every point's norm, and is 0 or some point's norm |
| Calibration.MaxRadius | main.js:231-235 | the `i += 3` loop computes that fold over all points |
| Calibration.CalibratedZMeaning | main.js:236 | the calibrated distance is not in front of the origin and keeps every point within half of it |
| Registry.InitialSlots | main.js:34-42 | `top` starts empty, `B`/`O` with four empty slots, `C` with two |
| Registry.RowLen | main.js:302 | `render`'s row length is the length the page starts each row with, and 1 for `top` |
| Registry.WithRow | main.js:150 | replacing a row's arrays changes that row only |
| Registry.WithSlot | main.js:204-206 | writing one slot sets it and leaves every other slot and row unchanged |
| Registry.CameraOf | main.js:310 | the coverage row alone uses the second camera |
| Registry.RowDraws | main.js:303-304 | a row issues at most one draw per slot |
| Registry.RowDrawsSound | main.js:301-317 | every draw of a row is one of its present slots, in increasing slot order |
| Registry.RowDrawsComplete | main.js:301-304 | every present slot within the row's length is drawn |
| Registry.PlanDrawsPresentSlots | main.js:298-318 | a frame draws exactly the present slots within each row's length, each with its own count, and uses the coverage camera iff the row is `C` |
| Registry.PlanOrder | main.js:299-318 | a frame draws rows in the order `top, B, O, C`, and within a row in slot order |
| Registry.PlanSize | main.js:298-318 | a frame issues at most one draw per canvas, eleven in all |
| Page.Drag | main.js:161-167 | a drag step keeps the distance and turns the camera iff the pointer moved |
| Page.DragAdditive | main.js:217-222 | two drag steps rotate by the sum of their deltas and keep the distance |
| Page.DragTelescopes | main.js:213-222 | because each move re-anchors, a whole drag rotates by the total pointer displacement since `pointerdown` |
| Page.ClampZ | main.js:287 | `Math.min(z, -minCameraZ)`: the result is at most 0.5 and at most `z`, and is one of them |
| Page.ZoomCover | main.js:283-287 | over `C` a wheel event, through both listeners, never passes the clamp |
| Page.ZoomPrimary | main.js:288-291 | over other rows a wheel event ends at most one step past the clamp |
| Page.ZoomCoverSteps | main.js:283-287 | over `C` backing away (`deltaY <= 0`) from below the clamp moves two steps; approaching moves two steps up to the clamp |
| Page.ZoomPrimarySteps | main.js:288-291 | over other rows backing away moves two steps; an approach whose first step reaches the clamp ends past it |
| Page.ZoomPrimaryPassesClamp | main.js:346 | the unclamped second listener can leave `cameraZ` past the clamp |
| Page.ZoomOnceMeaning | main.js:283-293 | one clamped step never passes the clamp and moves a full step iff that stays below it |
| Page.ResetCoverKeepsZoom | main.js:336-338 | the coverage reset leaves a zoomed distance in place |
| Page.Bind | main.js:153-154 | binding marks the canvas, adds no other, and never duplicates a binding |
| Page.BindIdempotent | main.js:209-210 | binding a canvas twice is binding it once |
| Page.BindRow | main.js:257-258 | binding slots `0 .. k` of a row marks exactly those canvases, without duplicates |
| Page.LoadedViewport | main.js:200-206 | a slot gets a viewport iff `loadPLY` returned a cloud and WebGL was set up; it keeps the setup's handles and counts one point per three position numbers |
| Page.LoadedCountIsVertexCount | main.js:185-186 | a slot loaded from a decoded text has as many points as its header declares vertices |
| Page.LoadedViews | main.js:199-206 | a loader loop writes the viewports of the sources before the first one that throws |
| Page.WriteRow | main.js:204-206 | writing slots `0 .. k` sets them and leaves every later slot and other row unchanged |
| Page.TopWriteKeeps | main.js:150-154 | loading the top row keeps the invariant: bound once each, bound iff loaded |
| Page.RowWriteKeeps | main.js:204-210 | loading a prefix of a row keeps the same invariant |
| Page.Viewer.constructor | main.js:12-44 | the globals as the script starts: both cameras at distance 5, nothing loaded or bound |
| Page.Viewer.PointerEnter | main.js:155 | entering a bound canvas activates its row |
| Page.Viewer.PointerLeave | main.js:156 | leaving a bound canvas clears the active row |
| Page.Viewer.PointerDown | main.js:157-160 | pressing on a bound canvas starts a drag anchored at the pointer |
| Page.Viewer.PointerMove | main.js:217-223 | a move rotates the camera of the canvas's row only while dragging over the active row, then re-anchors; otherwise nothing changes |
| Page.Viewer.PointerUp | main.js:224 | releasing over a bound canvas ends the drag |
| Page.Viewer.WheelClamped | main.js:283-293 | the first listener steps and clamps the active row's camera, and prevents the default iff a row is active |
| Page.Viewer.WheelUnclamped | main.js:344-347 | the second listener clamps `cam2Z` but steps `cameraZ` unclamped |
| Page.Viewer.Wheel | main.js:283-347 | a wheel event runs both listeners in order |
| Page.Viewer.ResetView | main.js:323-331 | the shared camera returns to yaw 0, pitch 0 and the calibrated distance |
| Page.Viewer.ResetCoverView | main.js:333-341 | the coverage angles return to 0 and `cam2Z` is unchanged |
| Page.Viewer.ResetCoverViewIntended | main.js:333-341 | the intended coverage reset returns to yaw 0, pitch 0 and the coverage baseline |
| Page.Viewer.BindOnce | main.js:209-210 | the `dataset.bound` check adds a canvas's listeners at most once |
| Page.Viewer.LoadTopRow | main.js:142-154 | on success the `top` row holds exactly the new viewport and its canvas is bound; on failure nothing changes; the invariant holds |
| Page.Viewer.LoadSlots | main.js:199-225 | the loop writes and binds the slots before the first failure and reports whether all loaded |
| Page.Viewer.LoadRow | main.js:198-227 | `loadRow` succeeds iff all four slots load, and then every slot holds its viewport; other rows are unchanged; the invariant holds |
| Page.Viewer.ZoomFor | main.js:231-236 | the `maxR` loop yields the calibrated distance of the cloud |
| Page.Viewer.SetInitialZoom | main.js:229-237 | when the middle path's cloud loads, both the reset target and the current distance become its calibrated distance; otherwise neither changes |
| Page.Viewer.LoadHouse | main.js:239-246 | the house loads fully iff every step succeeds; the camera is calibrated from the t = 45 BASE cloud iff the top row and that cloud load; each row holds what its loader wrote if reached and is unchanged otherwise; `C` is untouched |
| Page.Viewer.LoadGrid | main.js:244-245 | the `B` row is loaded, and the `O` row only if every `B` slot loaded; `top` and `C` are untouched |
| Page.Viewer.LoadCoverage | main.js:248-281 | the `C` row is written and bound up to the first failure; `cam2Z` is calibrated from the reloaded first cloud iff everything loads |
| Page.Viewer.LoadCoverageIntended | main.js:274-280 | the corrected loader also keeps the calibrated `cam2Z` as the coverage baseline |
| Page.Viewer.Render | main.js:298-318 | one frame issues exactly the draw plan for the current registry and cameras |

## Left out

- WebGL itself is not modelled. That covers shaders, buffers, `setupViewer`'s
  GPU calls, the projection and camera matrices (`perspective`, `multiply`,
  `translate`, `cameraMatrix`, `camera2Matrix`) and canvas resizing. A draw
  records the pose its camera matrix is computed from.
- `fetch`, `async`/`await` and the interleaving of `loadHouse`,
  `loadCoverage` and `render` are not modelled. Each loader runs start to
  finish as one step, and a failed fetch or WebGL setup is an input.
- The DOM is not modelled: canvas lookup, the reference photos, button
  highlighting, `console`, `alert`, `setPointerCapture`,
  `preventDefault` (only whether it is called) and `requestAnimationFrame`.
  The boot listener's calls become separate calls of the loader methods.
- `Float32Array` rounding and IEEE special values are not modelled. Numbers
  are reals, `Number` never yields NaN, and the division by 255 is exact.
- Ply.Float32Length: the maximum length of a typed array is not modelled;
  a huge count allocates in the model where the browser throws a
  `RangeError`.
- Ply.CountOf: a vertex line with no third field has count NaN in the
  browser, and the model counts it as 0. Both mean empty buffers and no row
  is read.
- Text.IsSpace: the white-space set is that of JavaScript's `\s`. Unicode
  categories beyond the listed code points are not modelled.
- Calibration.CloudPath: only the house, method and time of a path are
  modelled. The URL strings are not, and neither is the unused `buildPaths`
  versus the inlined `TIMES.map` in `loadHouse`.
- Page.SlotSource: a loader receives `loadPLY`'s outcome instead of calling
  `Ply.Decode` on fetched text itself. `Page.Decodable` records that a
  returned cloud has the shape `Ply.DecodeSpec` promises.
- Page.Viewer.SetInitialZoom: with an empty path list the script loads the
  URL `undefined`; the model treats that as a load that fails.
- Page.Viewer.LoadHouse: the middle BASE cloud is given as `fetch`, one
  outcome per path, apart from the row sources, since the script fetches it
  again rather than reusing a row's load.
- The `top` row's reference images and the specific canvas element IDs are
  not modelled. Canvases are identified by row and slot.

## Findings

| source | as written | input that shows it | evidently intended | confidence | as-written member | corrected member |
|---|---|---|---|---|---|---|
| main.js:338 | `reset-view-2` assigns `cam2Z = initialCoverZ`, a name the script never declares, so the handler throws a `ReferenceError` after zeroing the angles, and `cam2Z` keeps its zoomed value | zoom the `C` row (`cam2Z` = -1 after calibrating to -2), then click `reset-view-2`: `cam2Z` is still -1 | restore `cam2Z` to the coverage baseline that `loadCoverage` computed | high; not executed | Page.ResetCoverKeepsZoom | Page.Viewer.ResetCoverViewIntended |
| main.js:344-347 | a second `wheel` listener repeats the first, so every wheel event steps twice; for rows other than `C` its second step is not clamped | active row `B`, `cameraZ` = 0, `deltaY` = 100: `cameraZ` becomes 1.5, past the clamp of 0.5 | one clamped step per wheel event | medium; not executed | Page.ZoomPrimaryPassesClamp | Page.ZoomOnceMeaning |

`Page.Viewer` keeps the behaviour as written (`ResetCoverView`, `Wheel`),
since it models the page as it runs. The corrected members stand beside
it. `LoadCoverageIntended` keeps the calibrated distance in a field
`initialCoverZ`, and `ResetCoverViewIntended` returns to it. Pointer moves
and wheel events never change that field, so the corrected reset undoes any
drag or zoom. `ZoomOnce` is the corrected wheel step, with its properties
proved.
