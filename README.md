# PolygonGraphView, modelled in Dafny

PolygonGraphView is an Android view that draws a radar (polygon) chart. Its
dataset is an array of `ValueHolder` entries, each with a label, a magnitude
and a colour. An `Adapter` supplies the entries, and a `ValueAnimator` grows
the data polygon from the centre. This project models the view's logic:

- the magnitude clamp of the `ValueHolder` constructor;
- dataset assignment (`setAdapter`) and the design-time placeholder dataset
  (`setupForEditMode`);
- the animation state: progress pinned at 1, or driven by animator frames
  until the view is detached;
- `onDraw`: its guards, the radius budget in wrapping `int` arithmetic, and
  the three drawing passes;
- the label-anchor quadrant rule of `drawAxis`;
- the closed path `drawPoly` builds;
- the vertex placement of `computePoint`.

The view is the class `PolygonView.PolygonGraphView`. Its state is:

- the progress;
- whether the animator has been started (`animatorStarted`; it is never reset, as nothing
  in the view observes the animator ending);
- whether the view still listens to the animator;
- the number of redraw requests (`invalidate()`);
- the dataset array;
- the reused path.

The canvas is a recorder class: it keeps the list of the calls made on it.
`onDraw` is proved against `Frame.FrameOps`, a function that lists the calls
one frame makes, as a function of the view's state. The lemmas in `Frame`,
`Layout`, `Drawing` and `Geometry` then state what such a frame looks like.
`PolygonView.AnimationLifecycle` follows a client through the life cycle and
proves what each step leaves, from the method contracts alone.

Modules, one per concern:

- `JavaSemantics`: Java `int` wrap-around, the `(int)` cast of a `double`, and
  `int` division by two.
- `ValueModel`: `ValueHolder`, `Adapter`, Java's decimal rendering of
  `"label" + i`, and the placeholder dataset.
- `Geometry`: points, the vertex angle and `computePoint`.
- `Drawing`: path commands, canvas calls, the closed path and call counts.
- `Layout`: the configuration, the radius budget, the per-vertex radii and
  the label rule.
- `Frame`: what one frame draws.
- `PolygonView`: the view class and its methods.

Inputs the model takes as parameters:

- `Math.cos` and `Math.sin` are a pair of arbitrary functions (`Geometry.Trig`).
- Text measurement (`Paint.getTextBounds`) is a function from the text size
  and the label to the bounds' width and height.
- The view's width and height, as the layout pass set them.
- The configuration fields, which the view reads from theme attributes.

Two points in the code are easy to misread, and the model follows the code
as written:

- `onDraw` refuses only fewer than two entries, although its message says
  "greater than 2", so a two-entry chart is drawn.
- `quad = half / 2` is a float division, so for four entries `quad` is 1.5
  and no label is vertically centred (`Layout.FourVertexLabels`).

## Model

| member | source | states |
|---|---|---|
| `JavaSemantics.Int32` | app/src/main/java/com/nims/polygonsview/PolygonGraphView.java:121 | the value a Java `int` expression holds: it is in `int` range, it is congruent to the exact value modulo 2^32, and it is the exact value whenever that fits |
| `JavaSemantics.Int32OfCongruent` | app/src/main/java/com/nims/polygonsview/PolygonGraphView.java:121 | two exact values congruent modulo 2^32 hold the same `int` |
| `JavaSemantics.Int32AddWrapped` | app/src/main/java/com/nims/polygonsview/PolygonGraphView.java:121 | wrapping the left operand of an `int` sum first does not change the sum's `int` value |
| `JavaSemantics.Int32SubWrapped` | app/src/main/java/com/nims/polygonsview/PolygonGraphView.java:121 | wrapping the subtrahend first does not change the difference's `int` value |
| `JavaSemantics.D2I` | app/src/main/java/com/nims/polygonsview/PolygonGraphView.java:219-220 | the `(int)` cast is an `int`, saturates at both bounds, and otherwise truncates toward zero: within 1 below a non-negative value, within 1 above a negative one |
| `JavaSemantics.D2IOfInt` | app/src/main/java/com/nims/polygonsview/PolygonGraphView.java:219-220 | a whole number in `int` range casts to itself |
| `JavaSemantics.D2IDropsFraction` | app/src/main/java/com/nims/polygonsview/PolygonGraphView.java:219-220 | a non-negative `int` plus a fraction below 1 casts back to that `int` |
| `JavaSemantics.DivTwo` | app/src/main/java/com/nims/polygonsview/PolygonGraphView.java:151-154 | `int` division by two truncates toward zero: the remainder is 0 or 1 for a non-negative value and 0 or -1 for a negative one |
| `ValueModel.Snapshot` | app/src/main/java/com/nims/polygonsview/PolygonGraphView.java:86-89 | the dataset an assignment materialises: one entry per position of the adapter's size, entry i the holder the adapter creates for i |
| `ValueModel.EditModeHolders` | app/src/main/java/com/nims/polygonsview/PolygonGraphView.java:238-241 | the placeholder dataset: `EDIT_MODE_SIZE` (5) entries, entry i the holder built for "label" + i |
| `ValueModel.MakeValueHolder` | app/src/main/java/com/nims/polygonsview/PolygonGraphView.java:258-262 | the constructor keeps the title and colour; the stored value is in [0, 1]; a value already in [0, 1] is kept, below 0 becomes 0, above 1 becomes 1 |
| `ValueModel.DecimalString` | app/src/main/java/com/nims/polygonsview/PolygonGraphView.java:241 | `"" + i` for a non-negative `int` is a non-empty string of decimal digits, one digit for `i < 10` |
| `ValueModel.DecimalRoundTrip` | app/src/main/java/com/nims/polygonsview/PolygonGraphView.java:241 | reading the rendered digits back gives the number, so the rendering loses nothing |
| `ValueModel.EditModeDataset` | app/src/main/java/com/nims/polygonsview/PolygonGraphView.java:238-241 | the placeholder dataset has 5 entries; entry i is black, of magnitude 0.8, titled "label" followed by the digit i |
| `ValueModel.EditModeTitlesDistinct` | app/src/main/java/com/nims/polygonsview/PolygonGraphView.java:240-241 | no two placeholder entries share a title |
| `Geometry.Angle` | app/src/main/java/com/nims/polygonsview/PolygonGraphView.java:218 | the angle of vertex `position` of `size`: `2 * pi / size * position - pi / 2`, so vertex 0 is at -pi/2, the top |
| `Geometry.ComputePoint` | app/src/main/java/com/nims/polygonsview/PolygonGraphView.java:217-222 | computePoint: the centre `(width / 2, height / 2)` moved by `radius` along the vertex's angle, each coordinate cast to `int`, so both coordinates are in `int` range |
| `Geometry.AngleStep` | app/src/main/java/com/nims/polygonsview/PolygonGraphView.java:218 | consecutive vertices are one step of 2*pi/size apart |
| `Geometry.AngleClosure` | app/src/main/java/com/nims/polygonsview/PolygonGraphView.java:218 | the angle one step past the last vertex is a full turn from vertex 0 |
| `Geometry.ZeroRadiusIsCentre` | app/src/main/java/com/nims/polygonsview/PolygonGraphView.java:217-222 | `computePoint` at radius 0 is the centre `(width / 2, height / 2)`, whatever cos and sin are |
| `Geometry.TopVertex` | app/src/main/java/com/nims/polygonsview/PolygonGraphView.java:217-222 | vertex 0 is straight above the centre at distance r, given a sine of -1 and a cosine offset below one pixel, as Math.cos and Math.sin give at -pi/2 |
| `Drawing.Canvas.DrawCircle` | app/src/main/java/com/nims/polygonsview/PolygonGraphView.java:144 | the call is appended to the canvas's record and nothing else changes |
| `Drawing.Canvas.DrawText` | app/src/main/java/com/nims/polygonsview/PolygonGraphView.java:158 | the call is appended to the canvas's record |
| `Drawing.Canvas.DrawPathWith` | app/src/main/java/com/nims/polygonsview/PolygonGraphView.java:214 | the call is appended to the canvas's record |
| `Drawing.Canvas.DrawLine` | app/src/main/java/com/nims/polygonsview/PolygonGraphView.java:170 | the call is appended to the canvas's record |
| `Drawing.ClosedPath` | app/src/main/java/com/nims/polygonsview/PolygonGraphView.java:208-213 | the path through N points has N + 2 commands: a move to point 0, a line to each point in order, and a closing line back to point 0 |
| `Drawing.ClosedPathGoesRound` | app/src/main/java/com/nims/polygonsview/PolygonGraphView.java:208-213 | after the opening move, command k ends at point (k - 1) mod N, so the path goes round the polygon once and returns to its start |
| `Layout.Radius` | app/src/main/java/com/nims/polygonsview/PolygonGraphView.java:121 | onDraw's radius `Math.min(w, h) / 2 - (60 + dotSize + labelSize)`, each `int` step wrapped as Java does; the result is an `int` |
| `Layout.RadiusBudget` | app/src/main/java/com/nims/polygonsview/PolygonGraphView.java:121 | the radius, evaluated in wrapping `int` steps, is `min(w, h) / 2 - (60 + dotSize + labelSize)` wrapped once, and is exactly that whenever it fits in an `int` |
| `Layout.DefaultRadius` | app/src/main/java/com/nims/polygonsview/PolygonGraphView.java:121 | with the default dot and label sizes the radius is `min(w, h) / 2 - 98` |
| `Layout.LabelRadiusStepwise` | app/src/main/java/com/nims/polygonsview/PolygonGraphView.java:146 | adding the three label offsets one wrapping step at a time equals one wrap of their exact sum |
| `Layout.DataRadius` | app/src/main/java/com/nims/polygonsview/PolygonGraphView.java:193 | drawGraph's per-entry radius `value * radius * animValue`: 0 when the magnitude or the progress is 0, the full radius when both are 1 |
| `Layout.DataRadiusWithinBudget` | app/src/main/java/com/nims/polygonsview/PolygonGraphView.java:193 | with magnitude and progress in [0, 1], `value * radius * animValue` is in [0, radius] for a non-negative radius and in [radius, 0] for a negative one |
| `Layout.HalfOf` | app/src/main/java/com/nims/polygonsview/PolygonGraphView.java:129 | `half = (size / 2) + 1`, a whole number: at least 1, with `size < 2 * half <= size + 2` |
| `Layout.QuadOf` | app/src/main/java/com/nims/polygonsview/PolygonGraphView.java:130 | `quad = half / 2` in float arithmetic: whole exactly when `half` is even, otherwise ending in .5 |
| `Layout.VerticalOf` | app/src/main/java/com/nims/polygonsview/PolygonGraphView.java:148-152 | the vertical rule for label i: below for `quad < i < size - quad`, half down for `i == quad` or `i == size - quad`, unmoved otherwise |
| `Layout.HorizontalOf` | app/src/main/java/com/nims/polygonsview/PolygonGraphView.java:153-157 | the horizontal rule for label i: centred for `i % half == 0`, otherwise left of the point for `i > half`, otherwise right of it |
| `Layout.PlaceLabel` | app/src/main/java/com/nims/polygonsview/PolygonGraphView.java:148-157 | the label's text origin: the base point moved by both rules, so (for non-negative bounds) left by at most the text width and down by at most the text height, never right or up |
| `Layout.VerticalCases` | app/src/main/java/com/nims/polygonsview/PolygonGraphView.java:148-152 | each vertical placement holds exactly when its condition does: below for `quad < i < size - quad`, half down for `i == quad` or `i == size - quad`, unmoved otherwise; the three are exclusive |
| `Layout.FirstLabelCentredOnTop` | app/src/main/java/com/nims/polygonsview/PolygonGraphView.java:129-157 | for two or more entries, label 0 is horizontally centred and not moved vertically |
| `Layout.CentredLabels` | app/src/main/java/com/nims/polygonsview/PolygonGraphView.java:153-154 | a label is horizontally centred if and only if its vertex is 0 or `half` |
| `Layout.VerticalMirror` | app/src/main/java/com/nims/polygonsview/PolygonGraphView.java:148-152 | vertices i and size - i, mirror images across the vertical axis, get the same vertical placement |
| `Layout.MiddleNeedsWholeQuad` | app/src/main/java/com/nims/polygonsview/PolygonGraphView.java:129-152 | some label is moved half down exactly when `half` is even, and then vertex `half / 2` is one |
| `Layout.FourVertexLabels` | app/src/main/java/com/nims/polygonsview/PolygonGraphView.java:128-157 | for four entries `half` is 3 and `quad` is 1.5: labels 0 and 3 are centred, only label 2 is moved down, none is moved half down |
| `Frame.BackRing` | app/src/main/java/com/nims/polygonsview/PolygonGraphView.java:175-178 | the background and axis vertices: vertex i at the full radius, one per entry |
| `Frame.DataRing` | app/src/main/java/com/nims/polygonsview/PolygonGraphView.java:192-194 | the data vertices: vertex i at `value_i * radius * animValue`, one per entry |
| `Frame.VertexOps` | app/src/main/java/com/nims/polygonsview/PolygonGraphView.java:139-158 | the calls of the first k turns of drawAxis's loop: dot then label of each vertex, 2k calls |
| `Frame.FrameOps` | app/src/main/java/com/nims/polygonsview/PolygonGraphView.java:121-124 | every call one onDraw of N entries makes: background polygon, data polygon, then N dots and labels, the axis polygon and N spokes, 3N + 3 calls |
| `Frame.VertexOpsStep` | app/src/main/java/com/nims/polygonsview/PolygonGraphView.java:139-158 | each turn of the axis loop adds exactly two calls: the vertex's dot, then its label |
| `Frame.VertexOpsCounts` | app/src/main/java/com/nims/polygonsview/PolygonGraphView.java:139-158 | the first k turns of the axis loop make k dots, k labels and nothing else |
| `Frame.SpokesCount` | app/src/main/java/com/nims/polygonsview/PolygonGraphView.java:169-171 | the spokes are one line per point and nothing else |
| `Frame.FrameCounts` | app/src/main/java/com/nims/polygonsview/PolygonGraphView.java:121-172 | a frame of N entries makes N dots, N labels, N spokes and three polygons (background, data, axis) |
| `Frame.FullDataMatchesBackground` | app/src/main/java/com/nims/polygonsview/PolygonGraphView.java:178-194 | at full progress, a chart whose every magnitude is 1 draws its data polygon exactly on the background polygon |
| `Frame.DataAtCentre` | app/src/main/java/com/nims/polygonsview/PolygonGraphView.java:193-194 | at progress 0, or for a magnitude of 0, the data vertex is the centre |
| `Frame.DataWithinBackground` | app/src/main/java/com/nims/polygonsview/PolygonGraphView.java:193-194 | each data vertex is placed at a radius between 0 and the background radius |
| `PolygonView.PolygonGraphView.constructor` | app/src/main/java/com/nims/polygonsview/PolygonGraphView.java:45-79 | a new view listens to its animator, which is not started, has no redraws and holds no dataset; in design-time preview it holds the placeholder dataset at progress 1 |
| `PolygonView.PolygonGraphView.SetupForEditMode` | app/src/main/java/com/nims/polygonsview/PolygonGraphView.java:235-243 | the progress becomes 1 and the dataset a fresh array equal to the placeholder dataset; the animator state is unchanged |
| `PolygonView.PolygonGraphView.SetAdapter` | app/src/main/java/com/nims/polygonsview/PolygonGraphView.java:81-83 | the dataset becomes a fresh snapshot of the adapter and the animator is started; the progress is not touched |
| `PolygonView.PolygonGraphView.SetAdapterWithAnim` | app/src/main/java/com/nims/polygonsview/PolygonGraphView.java:85-97 | a negative size throws NegativeArraySizeException and changes nothing; otherwise the dataset is a fresh array of the adapter's size with entry i the adapter's holder i, so no earlier entry survives; with animation the animator is started and the progress is left alone; without, the progress becomes 1 and one redraw is requested |
| `PolygonView.PolygonGraphView.OnDetachedFromWindow` | app/src/main/java/com/nims/polygonsview/PolygonGraphView.java:99-103 | the view stops listening to the animator, and nothing else changes |
| `PolygonView.PolygonGraphView.OnAnimationUpdate` | app/src/main/java/com/nims/polygonsview/PolygonGraphView.java:105-109 | the progress becomes the animator's value, which stays in [0, 1], and one redraw is requested |
| `PolygonView.PolygonGraphView.DeliverAnimationFrame` | app/src/main/java/com/nims/polygonsview/PolygonGraphView.java:102-109 | an animator frame sets the progress and requests a redraw while the view listens; after detaching it changes nothing |
| `PolygonView.PolygonGraphView.OnDraw` | app/src/main/java/com/nims/polygonsview/PolygonGraphView.java:111-125 | no dataset: nothing is drawn; fewer than 2 entries: IllegalArgumentException and nothing is drawn; otherwise exactly the frame's calls are appended (background, data polygon, axis, at the computed radius) and the reused path ends as the axis polygon |
| `PolygonView.PolygonGraphView.DrawFrame` | app/src/main/java/com/nims/polygonsview/PolygonGraphView.java:121-124 | past the guards: the radius is computed once and drawBacks, drawGraph and drawAxis append exactly FrameOps, leaving the path as the axis polygon |
| `PolygonView.PolygonGraphView.DrawAxis` | app/src/main/java/com/nims/polygonsview/PolygonGraphView.java:127-172 | appends each vertex's dot and label, then the stroked axis polygon at the full radius, then a spoke from each axis vertex to the centre |
| `PolygonView.PolygonGraphView.DrawVertices` | app/src/main/java/com/nims/polygonsview/PolygonGraphView.java:138-161 | the axis loop appends every vertex's dot and label in order and collects the points at the full radius |
| `PolygonView.PolygonGraphView.DrawVertex` | app/src/main/java/com/nims/polygonsview/PolygonGraphView.java:140-158 | one turn of the loop appends the dot at `radius + dotPadding` in the entry's colour, then the label at `radius + dotSize + dotPadding + labelPadding`, moved by the quadrant rule |
| `PolygonView.PolygonGraphView.DrawSpokes` | app/src/main/java/com/nims/polygonsview/PolygonGraphView.java:168-171 | appends one line from each point, in order, to the centre |
| `PolygonView.PolygonGraphView.DrawBacks` | app/src/main/java/com/nims/polygonsview/PolygonGraphView.java:175-185 | appends the background polygon through the vertices at the full radius, filled with backColor |
| `PolygonView.PolygonGraphView.DrawGraph` | app/src/main/java/com/nims/polygonsview/PolygonGraphView.java:188-205 | appends the data polygon, vertex i at `value_i * radius * animValue`, filled with fillColor |
| `PolygonView.PolygonGraphView.DrawPoly` | app/src/main/java/com/nims/polygonsview/PolygonGraphView.java:207-215 | the reused path is reset to the closed path through the points, and that path is drawn with the given paint |
| `PolygonView.AdjustLabel` | app/src/main/java/com/nims/polygonsview/PolygonGraphView.java:147-157 | the label anchor moves down by the text height, by half of it or not at all, and left by the text width, by half of it or not at all, as the quadrant rule gives for the vertex |

## Left out

- Floating point: floats and doubles are modelled as exact reals, so rounding, NaN and infinities are not captured. This covers the angle computation, `value * radius * animValue` and the label point's float fields.
- `Math.cos` and `Math.sin`: their real values are not modelled; they are arbitrary functions passed in.
- Rendering: what the canvas draws is not modelled, only which calls are made. Anti-aliasing, the paint resets and the spokes' alpha of 128 are not recorded, and a recorded line carries no paint.
- Text measurement: `getTextBounds` is a parameter, so the width and height it reports are inputs.
- Theme attributes: the `TypedArray` reads of the constructor are not modelled. The configuration is a `Style` value, `Layout.DEFAULT_STYLE` holds the defaults.
- Animator timing and easing: the clock, the duration and the accelerate interpolator are not modelled. The animator is a source of values in [0, 1]; `DeliverAnimationFrame` stands for it calling its listeners.
- PolygonView.PolygonGraphView.SetAdapterWithAnim: starting the animator is a flag. On a device, `animator.start()` also delivers a first frame at value 0 at once; a client models that with `DeliverAnimationFrame(0.0)`.
- PolygonView.PolygonGraphView.OnAnimationUpdate: it requires a value in [0, 1], the range of the `ofFloat(0, 1)` animator. The Java method itself accepts any value the animator reports.
- The adapter: it is a pure value (a size and a holder per position). `getSize()` is taken to answer the same on every call. The NullPointerExceptions Java can throw here are not modelled: a null `adapter` at `adapter.getSize()` in setAdapter, a null holder returned by the adapter, and a holder whose `title` is null at `holder.title.length()` in drawAxis (Dafny's `Adapter` and `string` values cannot be null). An exception thrown by the adapter itself is not modelled either.
- PolygonView.PolygonGraphView.DrawGraph: the `backPoints` the Java method computes and never uses are not modelled.
- The view's width and height are fixed when it is built; a new layout pass is not modelled.
- `ValueHolder`'s public fields can be reassigned by clients after construction; the model treats an entry as a value.
- `super.onDraw` and `super.onDetachedFromWindow` are Android framework calls and are not modelled.
- MainActivity.kt is not part of this model: it only sets up a demo activity and adapter.
