/** PolygonGraphView: the dataset it holds, its animation state, and the
    draw guards and drawing helpers it runs on each frame. */
module PolygonView {
  import opened JavaSemantics
  import opened ValueModel
  import opened Geometry
  import opened Drawing
  import opened Layout
  import opened Frame

  datatype JavaException =
    | IllegalArgumentException(message: string)
    | NegativeArraySizeException

  /** How a call ends: normally or by throwing. */
  datatype Outcome = Normal | Threw(exception: JavaException)

  const SIZE_MESSAGE: string := "size must be greater than 2"

  class PolygonGraphView {
    /** Configuration, fixed at construction. */
    const style: Style
    /** getWidth() and getHeight(), as the layout pass left them. */
    const width: nat
    const height: nat

    /** Animation progress, read by every frame. */
    var animValue: real
    /** Whether `animator.start()` has been called. */
    var animatorStarted: bool
    /** Whether the view is still registered as the animator's update listener. */
    var listenerAttached: bool
    /** The number of invalidate() calls, each a redraw request. */
    var redrawRequests: nat
    /** The dataset snapshot; null until one is assigned. */
    var valueHolders: array?<ValueHolder>
    /** The path object drawPoly reuses. */
    var path: seq<PathOp>

    ghost predicate Valid()
      reads this
    {
      && StyleValid(style)
      && width <= INT_MAX && height <= INT_MAX
      && 0.0 <= animValue <= 1.0
    }

    /** The frame the current state describes. */
    function CurrentFrame(trig: Trig, textBounds: (int, string) -> TextBounds): Frame
      reads this, valueHolders
      requires valueHolders != null
    {
      Frame(valueHolders[..], width, height, style, animValue, trig, textBounds)
    }

    /** The constructor: setup() creates the animator with this view as its
        listener and, in design-time preview, loads the placeholder dataset. */
    constructor (style: Style, width: nat, height: nat, inEditMode: bool)
      requires StyleValid(style) && width <= INT_MAX && height <= INT_MAX
      ensures Valid()
      ensures this.style == style && this.width == width && this.height == height
      ensures listenerAttached && !animatorStarted && redrawRequests == 0 && path == []
      ensures !inEditMode ==> valueHolders == null && animValue == 0.0
      ensures inEditMode ==>
        valueHolders != null && fresh(valueHolders) && valueHolders[..] == EditModeHolders() && animValue == 1.0
    {
      this.style := style;
      this.width := width;
      this.height := height;
      animValue := 0.0;
      animatorStarted := false;
      listenerAttached := true;
      redrawRequests := 0;
      valueHolders := null;
      path := [];
      new;
      if inEditMode {
        SetupForEditMode();
      }
    }

    /** setupForEditMode: progress pinned at 1 and five placeholder entries. */
    method SetupForEditMode()
      requires Valid()
      modifies this
      ensures Valid()
      ensures animValue == 1.0
      ensures valueHolders != null && fresh(valueHolders) && valueHolders[..] == EditModeHolders()
      ensures animatorStarted == old(animatorStarted) && listenerAttached == old(listenerAttached)
      ensures redrawRequests == old(redrawRequests) && path == old(path)
    {
      animValue := 1.0;
      var holders := new ValueHolder[EDIT_MODE_SIZE];
      for i := 0 to EDIT_MODE_SIZE
        modifies holders
        invariant forall k :: 0 <= k < i ==> holders[k] == EditModeHolder(k)
      {
        holders[i] := MakeValueHolder("label" + DecimalString(i), EDIT_MODE_VALUE, BLACK);
      }
      valueHolders := holders;
    }

    /** setAdapter(adapter): assignment with animation. */
    method SetAdapter(adapter: Adapter) returns (outcome: Outcome)
      requires Valid()
      modifies this
      ensures Valid()
      ensures adapter.size < 0 ==> outcome == Threw(NegativeArraySizeException)
      ensures adapter.size < 0 ==>
        valueHolders == old(valueHolders) && animatorStarted == old(animatorStarted)
      ensures adapter.size >= 0 ==>
        && outcome == Normal
        && valueHolders != null && fresh(valueHolders)
        && valueHolders[..] == Snapshot(adapter)
        && animatorStarted
      ensures animValue == old(animValue) && redrawRequests == old(redrawRequests)
      ensures listenerAttached == old(listenerAttached) && path == old(path)
    {
      outcome := SetAdapterWithAnim(adapter, true);
    }

    /** setAdapter(adapter, anim): a fresh snapshot of the adapter replaces
        the dataset; then either the animator is started or the progress is
        pinned at 1 and a redraw requested. A negative size throws when the
        array is allocated, before anything changes. */
    method SetAdapterWithAnim(adapter: Adapter, anim: bool) returns (outcome: Outcome)
      requires Valid()
      modifies this
      ensures Valid()
      ensures adapter.size < 0 ==> outcome == Threw(NegativeArraySizeException)
      ensures adapter.size < 0 ==>
        && valueHolders == old(valueHolders) && animValue == old(animValue)
        && animatorStarted == old(animatorStarted) && redrawRequests == old(redrawRequests)
      ensures adapter.size >= 0 ==>
        && outcome == Normal
        && valueHolders != null && fresh(valueHolders)
        && valueHolders.Length == adapter.size
        && (forall i :: 0 <= i < adapter.size ==> valueHolders[i] == adapter.holderAt(i))
      ensures adapter.size >= 0 && anim ==>
        animatorStarted && animValue == old(animValue) && redrawRequests == old(redrawRequests)
      ensures adapter.size >= 0 && !anim ==>
        && animValue == 1.0 && redrawRequests == old(redrawRequests) + 1
        && animatorStarted == old(animatorStarted)
      ensures listenerAttached == old(listenerAttached) && path == old(path)
    {
      if adapter.size < 0 {
        return Threw(NegativeArraySizeException);
      }
      var holders := new ValueHolder[adapter.size];
      for i := 0 to adapter.size
        modifies holders
        invariant forall k :: 0 <= k < i ==> holders[k] == adapter.holderAt(k)
      {
        holders[i] := adapter.holderAt(i);
      }
      valueHolders := holders;
      if anim {
        animatorStarted := true;
      } else {
        animValue := 1.0;
        redrawRequests := redrawRequests + 1;
      }
      outcome := Normal;
    }

    /** onDetachedFromWindow: the view stops listening to the animator. */
    method OnDetachedFromWindow()
      requires Valid()
      modifies this`listenerAttached
      ensures Valid()
      ensures !listenerAttached
    {
      listenerAttached := false;
    }

    /** onAnimationUpdate: the progress becomes the animator's current value,
        which the animator keeps in [0, 1], and a redraw is requested. */
    method OnAnimationUpdate(animatedValue: real)
      requires Valid()
      requires 0.0 <= animatedValue <= 1.0
      modifies this`animValue, this`redrawRequests
      ensures Valid()
      ensures animValue == animatedValue && redrawRequests == old(redrawRequests) + 1
    {
      animValue := animatedValue;
      redrawRequests := redrawRequests + 1;
    }

    /** The animator producing a frame with value `animatedValue`: it calls
        its update listeners, of which this view is one until detached. */
    method DeliverAnimationFrame(animatedValue: real)
      requires Valid()
      requires 0.0 <= animatedValue <= 1.0
      modifies this`animValue, this`redrawRequests
      ensures Valid()
      ensures old(listenerAttached) ==>
        animValue == animatedValue && redrawRequests == old(redrawRequests) + 1
      ensures !old(listenerAttached) ==>
        animValue == old(animValue) && redrawRequests == old(redrawRequests)
    {
      if listenerAttached {
        OnAnimationUpdate(animatedValue);
      }
    }

    /** onDraw: nothing without a dataset; IllegalArgumentException for fewer
        than two entries; otherwise background, data polygon and axis, at
        the radius the view's size leaves. */
    method OnDraw(canvas: Canvas, trig: Trig, textBounds: (int, string) -> TextBounds) returns (outcome: Outcome)
      requires Valid()
      modifies canvas, this`path
      ensures valueHolders == null ==>
        outcome == Normal && canvas.ops == old(canvas.ops) && path == old(path)
      ensures valueHolders != null && valueHolders.Length < 2 ==>
        && outcome == Threw(IllegalArgumentException(SIZE_MESSAGE))
        && canvas.ops == old(canvas.ops) && path == old(path)
      ensures valueHolders != null && valueHolders.Length >= 2 ==>
        && outcome == Normal
        && canvas.ops == old(canvas.ops) + FrameOps(CurrentFrame(trig, textBounds))
        && path == ClosedPath(BackRing(CurrentFrame(trig, textBounds)))
    {
      if valueHolders == null {
        return Normal;
      }
      if valueHolders.Length < 2 {
        return Threw(IllegalArgumentException(SIZE_MESSAGE));
      }
      DrawFrame(canvas, trig, textBounds);
      outcome := Normal;
    }

    /** onDraw past its guards: background, data polygon and axis, at the
        radius the view's size leaves. */
    method DrawFrame(canvas: Canvas, trig: Trig, textBounds: (int, string) -> TextBounds)
      requires Valid()
      requires valueHolders != null && valueHolders.Length >= 2
      modifies canvas, this`path
      ensures canvas.ops == old(canvas.ops) + FrameOps(CurrentFrame(trig, textBounds))
      ensures path == ClosedPath(BackRing(CurrentFrame(trig, textBounds)))
    {
      var radius := Radius(width, height, style);
      ghost var f := CurrentFrame(trig, textBounds);
      ghost var before := canvas.ops;
      DrawBacks(canvas, radius, trig, f);
      DrawGraph(canvas, radius, trig, f);
      ghost var polygons := canvas.ops;
      DrawAxis(canvas, radius, trig, textBounds, f);
      assert polygons == before + BacksOps(f) + GraphOps(f);
      assert canvas.ops == before + FrameOps(f);
    }

    /** drawAxis: the dot and the label of each vertex, the stroked axis
        polygon and the spokes. */
    method DrawAxis(canvas: Canvas, radius: int, trig: Trig, textBounds: (int, string) -> TextBounds, ghost f: Frame)
      requires valueHolders != null && valueHolders.Length >= 2
      requires f.holders == valueHolders[..] && f.width == width && f.height == height
      requires f.style == style && f.trig == trig && f.textBounds == textBounds
      requires radius == FrameRadius(f)
      modifies canvas, this`path
      ensures canvas.ops == old(canvas.ops) + AxisOps(f)
      ensures path == ClosedPath(BackRing(f))
    {
      var centerX, centerY := width / 2, height / 2;
      var points := DrawVertices(canvas, radius, trig, textBounds, f);
      ghost var ring, vertices := points[..], canvas.ops;
      DrawPoly(canvas, points, Paint(style.axisColor, Stroke(style.axisSize)));
      ghost var polygon := canvas.ops;
      DrawSpokes(canvas, points, Point(centerX, centerY));
      assert points[..] == ring == BackRing(f);
      assert canvas.ops == polygon + Spokes(ring, Centre(width, height));
    }

    /** drawAxis's loop: each vertex's dot and label, while the axis points
        at the full radius are collected. */
    method DrawVertices(canvas: Canvas, radius: int, trig: Trig, textBounds: (int, string) -> TextBounds, ghost f: Frame)
      returns (points: array<Point>)
      requires valueHolders != null && valueHolders.Length >= 2
      requires f.holders == valueHolders[..] && f.width == width && f.height == height
      requires f.style == style && f.trig == trig && f.textBounds == textBounds
      requires radius == FrameRadius(f)
      modifies canvas
      ensures fresh(points)
      ensures canvas.ops == old(canvas.ops) + VertexOps(f, |f.holders|)
      ensures points[..] == BackRing(f)
    {
      var size := valueHolders.Length;
      points := new Point[size];
      for i := 0 to size
        modifies canvas, points
        invariant canvas.ops == old(canvas.ops) + VertexOps(f, i)
        invariant forall k :: 0 <= k < i ==> points[k] == BackRing(f)[k]
      {
        DrawVertex(canvas, i, radius, trig, textBounds, f);
        VertexOpsStep(f, i);
        assert canvas.ops == old(canvas.ops) + (VertexOps(f, i) + [VertexCall(f, i, false), VertexCall(f, i, true)]);
        points[i] := ComputePoint(width, height, size, i, radius as real, trig);
      }
      assert points[..] == BackRing(f);
    }

    /** The end of drawAxis: a line from every axis point to the centre. */
    method DrawSpokes(canvas: Canvas, points: array<Point>, centre: Point)
      modifies canvas
      ensures canvas.ops == old(canvas.ops) + Spokes(points[..], centre)
    {
      for k := 0 to points.Length
        invariant canvas.ops == old(canvas.ops) + Spokes(points[..k], centre)
      {
        assert points[..k + 1] == points[..k] + [points[k]];
        canvas.DrawLine(points[k], centre);
      }
      assert points[..points.Length] == points[..];
    }

    /** One pass of drawAxis's loop, before the axis point is stored: the dot
        `radius + dotPadding` out in the entry's colour, then the label,
        moved by the quadrant rule. */
    method DrawVertex(canvas: Canvas, i: nat, radius: int, trig: Trig, textBounds: (int, string) -> TextBounds, ghost f: Frame)
      requires valueHolders != null && i < valueHolders.Length
      requires f.holders == valueHolders[..] && f.width == width && f.height == height
      requires f.style == style && f.trig == trig && f.textBounds == textBounds
      requires radius == FrameRadius(f)
      modifies canvas
      ensures canvas.ops == old(canvas.ops) + [VertexCall(f, i, false), VertexCall(f, i, true)]
    {
      var size := valueHolders.Length;
      var holder := valueHolders[i];
      var dotPoint := ComputePoint(width, height, size, i, OffsetRadius(radius, style.dotPadding) as real, trig);
      canvas.DrawCircle(dotPoint, style.dotSize, holder.color);

      var labelPoint := ComputePoint(width, height, size, i,
        OffsetRadius(radius, style.dotSize + style.dotPadding + style.labelPadding) as real, trig);
      var rect := textBounds(style.labelSize, holder.title);
      labelPoint := AdjustLabel(labelPoint, size, i, rect);
      canvas.DrawText(holder.title, labelPoint, holder.color);
    }

    /** drawBacks: the filled background polygon at the full radius. */
    method DrawBacks(canvas: Canvas, radius: int, trig: Trig, ghost f: Frame)
      requires valueHolders != null && valueHolders.Length >= 2
      requires f.holders == valueHolders[..] && f.width == width && f.height == height
      requires f.style == style && f.trig == trig && radius == FrameRadius(f)
      modifies canvas, this`path
      ensures canvas.ops == old(canvas.ops) + BacksOps(f)
      ensures path == ClosedPath(BackRing(f))
    {
      var size := valueHolders.Length;
      var backPoints := new Point[size];
      for i := 0 to size
        modifies backPoints
        invariant forall k :: 0 <= k < i ==> backPoints[k] == BackRing(f)[k]
      {
        backPoints[i] := ComputePoint(width, height, size, i, radius as real, trig);
      }
      assert backPoints[..] == BackRing(f);
      DrawPoly(canvas, backPoints, Paint(style.backColor, Fill));
    }

    /** drawGraph: the filled data polygon, each vertex at
        `value * radius * animValue`. */
    method DrawGraph(canvas: Canvas, radius: int, trig: Trig, ghost f: Frame)
      requires valueHolders != null && valueHolders.Length >= 2
      requires f.holders == valueHolders[..] && f.width == width && f.height == height
      requires f.style == style && f.trig == trig && f.animValue == animValue
      requires radius == FrameRadius(f)
      modifies canvas, this`path
      ensures canvas.ops == old(canvas.ops) + GraphOps(f)
      ensures path == ClosedPath(DataRing(f))
    {
      var size := valueHolders.Length;
      var points := new Point[size];
      for i := 0 to size
        modifies points
        invariant forall k :: 0 <= k < i ==> points[k] == DataRing(f)[k]
      {
        var value := valueHolders[i].value * (radius as real) * animValue;
        assert value == DataRadius(f.holders[i].value, FrameRadius(f), f.animValue);
        points[i] := ComputePoint(width, height, size, i, value, trig);
      }
      assert points[..] == DataRing(f);
      DrawPoly(canvas, points, Paint(style.fillColor, Fill));
    }

    /** drawPoly: the reused path is reset to the closed path through the
        points, then drawn. */
    method DrawPoly(canvas: Canvas, points: array<Point>, paint: Paint)
      requires points.Length > 0
      modifies canvas, this`path
      ensures path == ClosedPath(points[..])
      ensures canvas.ops == old(canvas.ops) + [DrawPath(ClosedPath(points[..]), paint)]
    {
      path := [];
      path := path + [MoveTo(points[0])];
      for k := 0 to points.Length
        modifies this`path
        invariant path == [MoveTo(points[0])] + LinesTo(points[..k])
      {
        assert LinesTo(points[..k + 1]) == LinesTo(points[..k]) + [LineTo(points[k])];
        path := path + [LineTo(points[k])];
      }
      path := path + [LineTo(points[0])];
      assert points[..points.Length] == points[..];
      canvas.DrawPathWith(path, paint);
    }
  }

  /** The label adjustment inside drawAxis's loop: the label point moves down
      by the text height or half of it, then left by the text width or half
      of it, as the quadrant rule says for vertex `i` of `size`. This is the
      in-place form of the rule; Layout.PlaceLabel is its specification. */
  method AdjustLabel(labelPoint: Point, size: nat, i: nat, rect: TextBounds) returns (p: Point)
    ensures p == PlaceLabel(labelPoint, size, i, rect)
  {
    var half := size / 2 + 1;
    var quad: real := (half as real) / 2.0;
    p := labelPoint;
    if i as real > quad && (i as real) < (size as real) - quad {
      p := p.(y := p.y + rect.height);
    } else if i as real == quad || i as real == (size as real) - quad {
      p := p.(y := p.y + DivTwo(rect.height));
    }
    if i % half == 0 {
      p := p.(x := p.x - DivTwo(rect.width));
    } else if i > half {
      p := p.(x := p.x - rect.width);
    }
  }

  /** A client's view of the animation life cycle: an assignment without
      animation pins the progress at 1, frames move it while the view
      listens, and after detaching a frame changes nothing. */
  method AnimationLifecycle(adapter: Adapter, trig: Trig, textBounds: (int, string) -> TextBounds)
    requires adapter.size >= 2
  {
    var view := new PolygonGraphView(DEFAULT_STYLE, 1080, 1920, false);
    var canvas := new Canvas();
    var outcome := view.OnDraw(canvas, trig, textBounds);
    assert outcome == Normal && canvas.ops == [];

    outcome := view.SetAdapterWithAnim(adapter, false);
    assert view.animValue == 1.0 && view.redrawRequests == 1;

    outcome := view.SetAdapter(adapter);
    assert view.animatorStarted && view.animValue == 1.0;
    view.DeliverAnimationFrame(0.25);
    assert view.animValue == 0.25;

    view.OnDetachedFromWindow();
    view.DeliverAnimationFrame(0.75);
    assert view.animValue == 0.25;

    outcome := view.OnDraw(canvas, trig, textBounds);
    assert outcome == Normal;
    assert canvas.ops == FrameOps(view.CurrentFrame(trig, textBounds));
  }
}
