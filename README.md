# PolygonEditor work zone, modelled in Dafny

This project models the `<polygon-editor>` custom element in
`src/components/Polygon-editor.js`: the work zone of a browser polygon editor.
Polygons are dropped onto a canvas that can be panned and zoomed. They can be
dragged to new positions, loaded, read back and cleared, and a coordinate grid
is redrawn whenever the viewport changes.

The model keeps the element's own state and splits its logic by concern:

- `wrappers.dfy`: `Option`.
- `geometry.dfy` (module `Geometry`): points with exact `real` coordinates.
  - `Math.min`/`Math.max` over a list, and the bounding-box centre used by a drop.
  - The per-term `reduce` that the drag handler uses as a centroid. It is proved equal to the arithmetic mean.
  - The nearest-vertex loop of a drag start.
- `point_text.dfy` (module `PointText`): the `points` attribute text.
  - `split` on a one-character separator, `join`, and `trim`, following the JavaScript string methods.
  - Parsing and formatting of `x,y` tokens. The round trip is proved for every non-empty polygon whose coordinates the codec writes faithfully.
  - Numbers go through an abstract codec `NumberText(show, read)`. `Writes(t, v)` says, for one number `v`, that reading back the written numeral gives `v` and that the numeral contains neither a comma nor white space. `FaithfulOn(t, pts)` says this of every coordinate of `pts`. Each lemma asks it only of the points it writes.
- `viewport.dfy` (module `Viewport`): the scale and offset.
  - A screen point `p` shows world point `p / scale - offset`. A world point `w` is drawn at `(w + offset) * scale`.
  - The zoom update, clamped to [0.1, 10], and the offset update exactly as written.
  - The pan update, capped at 0 per axis.
  - The SVG transform of the polygon layer, as written and corrected.
- `grid.dfy` (module `Grid`): the grid redraw as a pure layout.
  - Tick ranges from `floor(lo / 50) * 50` to `ceil(hi / 50) * 50`.
  - Lines, the grey axis bands, the axis lines and the labels.
  - The four drawing loops, as methods proved equal to the layout.
- `editor.dfy` (module `Editor`): the class `PolygonEditor`.
  - Fields:
    - `scale`, `offset`;
    - `isPanning`, `start`;
    - `draggingPolygon`, `dragOffset`;
    - the polygon layer, as the sequence of its `points` strings in document order;
    - the layer transform;
    - the grid items.
  - One method per handler.
  - Methods for the `mousedown`/`mousemove`/`mouseup`/`mouseleave` events, which run every listener bound to the event in binding order.
  - `loadPolygons`, `getPolygons` and `clearPolygons`.

Screen positions are handler parameters: the pointer's client position, the
surface's top-left corner and its pixel width and height. `Valid()` is the
class invariant:
- the scale is in range;
- a pan in progress has a start point;
- a dragged polygon that is still in the layer has an index inside it.

Behaviour of the code worth noting:
- A drop centres the polygon's bounding box under the cursor, not its centroid. `Geometry.DropCentresBoxNotCentroid` works the triangle `0,0 10,0 5,10` dropped at (100, 100): its centroid lands at (100, 295/3).
- The zoom does not keep the world point under the cursor fixed (`Viewport.ZoomMovesCursorPoint`). It can also leave a positive offset (`Viewport.ZoomMayMakeOffsetPositive`). The pan handler, by contrast, caps the offset at 0.
- A press while a pan or a drag is in progress is not ignored. A press on the canvas restarts the pan; a press on a polygon starts dragging that polygon.
- Nothing prevents a pan and a drag from running at the same time. A press on the canvas during a drag starts a pan, and the drag goes on. `mouseleave` ends a drag but not a pan.
- There is no fit-to-bounds or centre-based transform in this component.

The horizontal grid lines and the y labels are placed at `height - (y + offset.y) * scale`. The world y axis is thus drawn upwards from the bottom edge. Every pointer conversion and the polygon layer put world y downwards from the top. `Grid.ScreenY` models the code as written.

## Model

| member | source | states |
|---|---|---|
| Geometry.Min | src/components/Polygon-editor.js:85-86 | `Math.min(...xs)` over a non-empty list is an element of the list and at most every element |
| Geometry.Max | src/components/Polygon-editor.js:87-88 | `Math.max(...xs)` over a non-empty list is an element of the list and at least every element |
| Geometry.MinShift | src/components/Polygon-editor.js:85-86 | adding a constant to every coordinate adds it to the minimum |
| Geometry.MaxShift | src/components/Polygon-editor.js:87-88 | adding a constant to every coordinate adds it to the maximum |
| Geometry.BoxCenterTranslate | src/components/Polygon-editor.js:85-90 | translating a polygon translates its bounding-box centre by the same vector |
| Geometry.Placed | src/components/Polygon-editor.js:84-97 | the dropped points: as many as the input, each moved by `target - centre`, with the bounding-box centre exactly on the target |
| Geometry.SumOverIsSumDivided | src/components/Polygon-editor.js:248-250 | the fold `acc + p.x / n` from 0 equals the plain sum divided by `n` |
| Geometry.SumShift | src/components/Polygon-editor.js:248-250 | shifting every term by `c` adds `n * c` to the sum |
| Geometry.CentroidIsMean | src/components/Polygon-editor.js:248-250 | the drag handler's `reduce` is the arithmetic mean of the points |
| Geometry.MeanShift | src/components/Polygon-editor.js:248-250 | the mean of a shifted list is the shifted mean |
| Geometry.CentroidTranslate | src/components/Polygon-editor.js:248-257 | translating a polygon translates its centroid by the same vector |
| Geometry.Moved | src/components/Polygon-editor.js:248-257 | the moved points: as many as the input, each moved by `target - centroid`, with the centroid exactly on the target |
| Geometry.SuccessiveMoves | src/components/Polygon-editor.js:253-257 | a second move translates the once-moved polygon by exactly the difference of the two targets |
| Geometry.DropCentresBoxNotCentroid | src/components/Polygon-editor.js:84-97 | the triangle `0,0 10,0 5,10` dropped at (100, 100) has its box centre there but its centroid at (100, 295/3) |
| Geometry.NearestVertex | src/components/Polygon-editor.js:210-217 | no vertex exactly when the polygon is empty; otherwise an index at minimal distance from the pointer, strictly nearer than every earlier vertex (the first nearest, as the strict `<` against `Infinity` picks it) |
| PointText.Split | src/components/Polygon-editor.js:79-80 | `split` on one character gives at least one piece, and no piece contains the separator |
| PointText.JoinSplit | src/components/Polygon-editor.js:79-80 | joining the pieces of a split with the separator restores the text |
| PointText.SplitJoin | src/components/Polygon-editor.js:97 | splitting a join of separator-free pieces gives back exactly those pieces |
| PointText.TrimStart | src/components/Polygon-editor.js:79 | the result is a suffix of the input; everything removed is white space; the result does not begin with white space |
| PointText.TrimEnd | src/components/Polygon-editor.js:79 | the result is a prefix of the input; everything removed is white space; the result does not end with white space |
| PointText.TrimUnchanged | src/components/Polygon-editor.js:79 | `trim` leaves text that neither starts nor ends with white space unchanged |
| PointText.ParseAll | src/components/Polygon-editor.js:79-82 | the result is absent exactly when some token does not parse; otherwise it has one point per token, the `k`-th being the parse of the `k`-th token |
| PointText.ParsePoints | src/components/Polygon-editor.js:202-207 | a `points` string is unreadable exactly when one of its space-separated tokens is; otherwise it has one point per token, in order, and at least one, as `split(' ')` never gives an empty list |
| PointText.ParseFormatPoint | src/components/Polygon-editor.js:97 | a formatted `x,y` token has no space, and parses back to its point when the codec writes both coordinates faithfully |
| PointText.ParseAllTokens | src/components/Polygon-editor.js:97 | the list of formatted tokens parses back to the points, in order, when the codec writes every coordinate faithfully |
| PointText.ParseFormat | src/components/Polygon-editor.js:240-257 | reading back a formatted non-empty polygon gives exactly its points, when the codec writes every coordinate faithfully |
| PointText.TrimFormat | src/components/Polygon-editor.js:79 | `trim` leaves a formatted polygon unchanged when its first and last numerals hold no white space |
| Viewport.ScreenToWorld | src/components/Polygon-editor.js:75-76 | the world point of a screen point is drawn back at that screen point by the world-to-screen map |
| Viewport.WorldToScreenInverse | src/components/Polygon-editor.js:289 | converting a drawn world point back to world space gives the point itself |
| Viewport.ZoomedScale | src/components/Polygon-editor.js:122-127 | the new scale lies in [0.1, 10]; it is the old scale times 1.1 for `deltaY < 0` and divided by 1.1 otherwise, unless that is out of range, in which case it is the bound crossed |
| Viewport.ZoomDirection | src/components/Polygon-editor.js:122-127 | from an in-range scale, wheeling up never zooms out and wheeling down never zooms in |
| Viewport.ZoomedOffsetClosedForm | src/components/Polygon-editor.js:130-135 | the new offset is the capped old offset plus one eleventh of `offset + mouse / newScale - mouse / oldScale` |
| Viewport.ZoomMovesCursorPoint | src/components/Polygon-editor.js:117-135 | one zoom step at cursor (10, 0) from scale 1 and offset 0 changes the world point under the cursor |
| Viewport.ZoomMayMakeOffsetPositive | src/components/Polygon-editor.js:129-135 | one zoom-out step at cursor (10, 0) from scale 1 and offset 0 gives a positive offset |
| Viewport.PannedOffset | src/components/Polygon-editor.js:153-166 | the new offset is at most 0 per axis; it is the old offset plus the pointer movement over the scale where that is at most 0, and 0 otherwise |
| Viewport.PanFollowsPointer | src/components/Polygon-editor.js:150-169 | where the cap does not bite, the world point under the previous pointer position is under the new one |
| Viewport.PanStepsCompose | src/components/Polygon-editor.js:150-169 | where the first cap does not bite, two pan steps equal one step over the whole movement |
| Viewport.AsWrittenAgreesOnlyAtUnitScale | src/components/Polygon-editor.js:180 | the transform as written draws every world point where the grid and pointer handlers place it if and only if the scale is 1 or the offset is 0 |
| Viewport.AsWrittenMisplacesDrop | src/components/Polygon-editor.js:180 | with scale 2 and offset (-10, 0), a polygon point dropped at screen (0, 0) is drawn at (10, 0) by the transform as written |
| Viewport.LayerTransform | src/components/Polygon-editor.js:178-181 | the corrected transform draws every world point at `(w + offset) * scale` |
| Viewport.LayerTransformDrawsUnderCursor | src/components/Polygon-editor.js:178-181 | with the corrected transform, what is dropped or dragged to a screen point is drawn at that screen point |
| Grid.TickIndex | src/components/Polygon-editor.js:288 | the loop `x <= end; x += 50` is still running after `i` steps exactly when `i` is below the tick count |
| Grid.TicksExactly | src/components/Polygon-editor.js:286-288 | the loop visits exactly the values between start and end that the start reaches in steps of 50 |
| Grid.GridTicksAreMultiples | src/components/Polygon-editor.js:280-303 | the vertical (resp. horizontal) lines sit exactly at the multiples of 50 between the floor tick of the window's left (top) edge and the ceiling tick of its right (bottom) edge |
| Grid.TickBounds | src/components/Polygon-editor.js:286-287 | the start tick is the multiple of 50 at or below the edge, less than 50 away, and the end tick the multiple at or above it |
| Grid.GridCoversSurface | src/components/Polygon-editor.js:280-304 | for a positive scale there is at least one line per axis, and the first and last lines reach or pass both edges of the surface |
| Grid.XLabelsExactly | src/components/Polygon-editor.js:352-363 | the x labels are labels for ticks of the range, never negative, and every non-negative tick has its label |
| Grid.LabelAsymmetry | src/components/Polygon-editor.js:352-375 | a negative tick gets a y label but no x label |
| Grid.VerticalLines | src/components/Polygon-editor.js:286-298 | the loop draws one full-height line per tick of the horizontal window, in order |
| Grid.HorizontalLines | src/components/Polygon-editor.js:301-313 | the loop draws one full-width line per tick of the vertical window, in order |
| Grid.XAxisLabels | src/components/Polygon-editor.js:352-363 | the loop draws the x labels of the tick range, skipping negative ticks |
| Grid.YAxisLabels | src/components/Polygon-editor.js:365-375 | the loop draws one y label per tick of the range |
| Grid.Draw | src/components/Polygon-editor.js:272-376 | the redraw yields the vertical lines, horizontal lines, bands and axes, x labels and y labels, in that order |
| Editor.DropPlacesUnderCursor | src/components/Polygon-editor.js:67-107 | a drop that parses appends one polygon and keeps the others; when the codec writes the placed points faithfully, the new polygon parses back to as many points, each moved by the same vector, with its bounding-box centre on the cursor's world point |
| Editor.DropFormattedPayload | src/components/Polygon-editor.js:67-107 | a payload in the point-string format, written faithfully, is dropped as exactly those points, re-centred |
| Editor.MoveIsRigid | src/components/Polygon-editor.js:236-260 | when the moved points are written faithfully, a drag move keeps the number of points, moves every point by one vector and puts the centroid on the target |
| Editor.MovesFollowPointer | src/components/Polygon-editor.js:225-260 | when both moves are written faithfully, a second move shifts every point by the difference of the two targets |
| Editor.PolygonEditor.constructor | src/components/Polygon-editor.js:2-50 | scale 1, offset 0, no pan, no drag, an empty layer, no transform, the grid of the initial viewport |
| Editor.PolygonEditor.DrawGrid | src/components/Polygon-editor.js:272-376 | the grid layer becomes the layout of the current viewport |
| Editor.PolygonEditor.ApplyTransform | src/components/Polygon-editor.js:178-188 | the layer transform becomes `translate(offset) scale(scale)` of the viewport, as written, and the grid is redrawn |
| Editor.PolygonEditor.Drop | src/components/Polygon-editor.js:67-107 | an empty or unreadable payload leaves the layer; otherwise the re-centred polygon is appended at the cursor's world point |
| Editor.PolygonEditor.Zoom | src/components/Polygon-editor.js:110-138 | the new scale is the clamped zoom step, the new offset the written update, then the transform as written and the grid follow the new viewport |
| Editor.PolygonEditor.MouseDown | src/components/Polygon-editor.js:141-147 | a press on the canvas starts a pan from the pointer; a press on a polygon changes nothing |
| Editor.PolygonEditor.MouseMove | src/components/Polygon-editor.js:150-169 | without a pan nothing changes; during a pan the start moves to the pointer, the offset becomes the capped pan update (at most 0), and the transform as written and the grid follow |
| Editor.PolygonEditor.MouseUp | src/components/Polygon-editor.js:172-175 | the pan ends |
| Editor.PolygonEditor.PolygonMouseDown | src/components/Polygon-editor.js:191-222 | on a polygon, it becomes the dragged one and the grab offset is measured from its first nearest vertex; on the canvas nothing changes |
| Editor.PolygonEditor.PolygonMouseMove | src/components/Polygon-editor.js:225-261 | without a drag nothing changes; otherwise exactly the dragged polygon's text is replaced by its move to pointer minus grab offset |
| Editor.PolygonEditor.PolygonMouseUp | src/components/Polygon-editor.js:264-269 | the drag ends |
| Editor.PolygonEditor.OnMouseDown | src/components/Polygon-editor.js:57-60 | on the canvas, a pan starts from the pointer and the drag state and grab offset are kept; on a polygon, the pan state is kept, that polygon becomes the dragged one and the grab offset is measured from its first nearest vertex; the frame keeps the viewport, transform, grid and layer |
| Editor.PolygonEditor.OnMouseMove | src/components/Polygon-editor.js:58-61 | the pan step runs first: during a pan the start, the capped offset, the transform as written and the grid are updated, otherwise they are kept; then the drag step moves the dragged polygon, on the layer or detached, to the pointer's world point under the panned offset minus the grab offset, and without a drag the layer is kept |
| Editor.PolygonEditor.OnMouseUp | src/components/Polygon-editor.js:59-62 | a release ends both a pan and a drag; the frame keeps the viewport, start, grab offset, transform, grid and layer |
| Editor.PolygonEditor.OnMouseLeave | src/components/Polygon-editor.js:63 | leaving the surface ends a drag; the frame keeps the pan and every other field |
| Editor.PolygonEditor.LoadPolygons | src/components/Polygon-editor.js:379-389 | the layer becomes exactly the given point strings, in order; a dragged polygon is detached from the layer |
| Editor.PolygonEditor.GetPolygons | src/components/Polygon-editor.js:392-395 | the point strings of the layer, in document order, so that loading them back restores the layer |
| Editor.PolygonEditor.ClearPolygons | src/components/Polygon-editor.js:398-400 | the layer becomes empty; a dragged polygon is detached from the layer |

## Left out

- DOM and rendering: shadow DOM set-up, styles, cursors, colours, fonts, `preventDefault`/`stopPropagation`, and the `dragover` listener. The grid keeps only the coordinates and label values it draws.
- Browser inputs: `getBoundingClientRect`, `clientWidth`/`clientHeight` and the event's client position are handler parameters. The drag payload is a string parameter.
- Floating point: coordinates are exact reals, so IEEE rounding and the exact `${n}` number text are not modelled. The number codec is abstract. The round-trip lemmas ask it to write faithfully only the coordinates they format (`Writes`, `FaithfulOn`); the class makes no assumption about it.
- `Number()` parsing and NaN: a token whose coordinates cannot be read makes the whole polygon unreadable in the model.
  - A drop leaves the layer unchanged, where the browser appends a polygon with NaN coordinates.
  - A drag start leaves the grab offset unchanged, where the browser still compares the distances of the readable vertices.
  - A drag move leaves the text unchanged.
- Geometry.NearestVertex compares squared distances instead of `Math.sqrt`, which has the same minimisers over exact reals.
- Grid labels: the grid keeps the integer tick value rather than `Math.round(x)`. Ticks are integers, so they agree.
- PointText.IsSpace covers the white space and line terminators of the ECMAScript standard; `trim` on other Unicode space separators is not modelled.
- Viewport.PanFollowsPointer and Viewport.PanStepsCompose hold only where the cap at 0 does not bite; with the cap, the world does not follow the pointer.
- `customElements.define` and the callers of the element (`main.js`, `App.js`, `Polygon-utils.js` and the build configuration) are not part of this model.
- Editor.PolygonEditor.ApplyTransform, Zoom and MouseMove store the transform as written at `src/components/Polygon-editor.js:180`. The corrected `Viewport.LayerTransform` and its property are proved in `Viewport` only; the editor state keeps the source's behaviour.
- The removed polygon elements that the source still holds after `loadPolygons` or `clearPolygons` are modelled by `Detached` text, not by element identity.

## Findings

| source | as written | input that shows it | evidently intended | confidence | as-written member | corrected member |
|---|---|---|---|---|---|---|
| src/components/Polygon-editor.js:180 | the polygon layer gets `translate(offset) scale(scale)`, which draws world point `w` at `offset + scale * w` | scale 2, offset (-10, 0), drop at screen (0, 0): the pointer maps to world (10, 0), and the transform as written draws that point at (10, 0) instead of (0, 0) | `translate(offset * scale) scale(scale)`, which draws `w` at `(w + offset) * scale`, the map the grid and every pointer conversion use | not executed | Viewport.AsWrittenMisplacesDrop | Viewport.LayerTransform |
