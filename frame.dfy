/** What one onDraw of a chart with two or more entries sends to the canvas
    (drawBacks, drawGraph and drawAxis), as functions of the view's state. */
module Frame {
  import opened JavaSemantics
  import opened ValueModel
  import opened Geometry
  import opened Drawing
  import opened Layout

  /** Everything a frame depends on: the dataset, the view size, the
      configuration, the animation progress, the trigonometry and the text
      measurement (text size and label to bounds). */
  datatype Frame = Frame(
    holders: seq<ValueHolder>, width: nat, height: nat, style: Style,
    animValue: real, trig: Trig, textBounds: (int, string) -> TextBounds)

  function FrameRadius(f: Frame): int
  {
    Radius(f.width, f.height, f.style)
  }

  /** The `size` points of the circle at `radius`, vertex 0 first. */
  function Ring(width: nat, height: nat, size: nat, radius: real, trig: Trig): (ring: seq<Point>)
    requires size > 0
    ensures |ring| == size
  {
    seq(size, i requires 0 <= i < size => ComputePoint(width, height, size, i, radius, trig))
  }

  /** The background polygon's and the axis polygon's vertices. */
  function BackRing(f: Frame): (ring: seq<Point>)
    requires |f.holders| > 0
    ensures |ring| == |f.holders|
  {
    Ring(f.width, f.height, |f.holders|, FrameRadius(f) as real, f.trig)
  }

  /** The data polygon's vertices: each at its own data radius. */
  function DataRing(f: Frame): (ring: seq<Point>)
    requires |f.holders| > 0
    ensures |ring| == |f.holders|
  {
    seq(|f.holders|, i requires 0 <= i < |f.holders| =>
      ComputePoint(f.width, f.height, |f.holders|, i,
        DataRadius(f.holders[i].value, FrameRadius(f), f.animValue), f.trig))
  }

  /** Where vertex i's dot is drawn: `radius + dotPadding` out. */
  function DotPoint(f: Frame, i: nat): Point
    requires i < |f.holders|
  {
    ComputePoint(f.width, f.height, |f.holders|, i,
      OffsetRadius(FrameRadius(f), f.style.dotPadding) as real, f.trig)
  }

  /** Where vertex i's label is drawn: its base point
      `radius + dotSize + dotPadding + labelPadding` out, moved by the
      label-anchor rule for the measured text. */
  function LabelPoint(f: Frame, i: nat): Point
    requires i < |f.holders|
  {
    var base := ComputePoint(f.width, f.height, |f.holders|, i,
      OffsetRadius(FrameRadius(f), f.style.dotSize + f.style.dotPadding + f.style.labelPadding) as real, f.trig);
    PlaceLabel(base, |f.holders|, i, f.textBounds(f.style.labelSize, f.holders[i].title))
  }

  /** The two calls vertex i makes: its dot, then its label. */
  function VertexCall(f: Frame, i: nat, second: bool): DrawOp
    requires i < |f.holders|
  {
    if second then Text(f.holders[i].title, LabelPoint(f, i), f.holders[i].color)
    else Circle(DotPoint(f, i), f.style.dotSize, f.holders[i].color)
  }

  /** The dot and the label of each of the first k vertices, in order. */
  function VertexOps(f: Frame, k: nat): (ops: seq<DrawOp>)
    requires k <= |f.holders|
    ensures |ops| == 2 * k
  {
    seq(2 * k, j requires 0 <= j < 2 * k => VertexCall(f, j / 2, j % 2 == 1))
  }

  /** Each vertex adds two calls, a dot and a label. */
  lemma VertexOpsStep(f: Frame, k: nat)
    requires k < |f.holders|
    ensures VertexOps(f, k + 1) == VertexOps(f, k) + [VertexCall(f, k, false), VertexCall(f, k, true)]
  {
    var next := VertexOps(f, k) + [VertexCall(f, k, false), VertexCall(f, k, true)];
    forall j | 0 <= j < 2 * k + 2
      ensures VertexOps(f, k + 1)[j] == next[j]
    {
      if j < 2 * k {
        assert VertexOps(f, k)[j] == VertexCall(f, j / 2, j % 2 == 1);
      } else if j == 2 * k {
        assert j / 2 == k && j % 2 == 0;
      } else {
        assert j / 2 == k && j % 2 == 1;
      }
    }
  }

  /** A line from each point to the centre. */
  function Spokes(points: seq<Point>, centre: Point): seq<DrawOp>
  {
    seq(|points|, k requires 0 <= k < |points| => Line(points[k], centre))
  }

  /** drawBacks: the filled background polygon. */
  function BacksOps(f: Frame): seq<DrawOp>
    requires |f.holders| > 0
  {
    [DrawPath(ClosedPath(BackRing(f)), Paint(f.style.backColor, Fill))]
  }

  /** drawGraph: the filled data polygon. */
  function GraphOps(f: Frame): seq<DrawOp>
    requires |f.holders| > 0
  {
    [DrawPath(ClosedPath(DataRing(f)), Paint(f.style.fillColor, Fill))]
  }

  /** drawAxis: dots and labels, the stroked axis polygon, then the spokes. */
  function AxisOps(f: Frame): seq<DrawOp>
    requires |f.holders| > 0
  {
    VertexOps(f, |f.holders|)
    + [DrawPath(ClosedPath(BackRing(f)), Paint(f.style.axisColor, Stroke(f.style.axisSize)))]
    + Spokes(BackRing(f), Centre(f.width, f.height))
  }

  /** The whole frame: background first, data polygon over it, axis on top. */
  function FrameOps(f: Frame): (ops: seq<DrawOp>)
    requires |f.holders| > 0
    ensures |ops| == 3 * |f.holders| + 3
  {
    BacksOps(f) + GraphOps(f) + AxisOps(f)
  }

  /** A sequence of dot-then-label pairs holds `k` of each and nothing else. */
  lemma {:induction false} AlternatingCount(ops: seq<DrawOp>, k: nat, kind: OpKind)
    requires |ops| == 2 * k
    requires forall j :: 0 <= j < |ops| ==> KindOf(ops[j]) == if j % 2 == 1 then TextKind else CircleKind
    ensures Count(ops, kind) == if kind == CircleKind || kind == TextKind then k else 0
  {
    if k > 0 {
      var init := ops[..2 * k - 2];
      assert ops == init + [ops[2 * k - 2], ops[2 * k - 1]];
      assert KindOf(ops[2 * k - 2]) == CircleKind;
      assert KindOf(ops[2 * k - 1]) == TextKind;
      forall j | 0 <= j < |init|
        ensures KindOf(init[j]) == if j % 2 == 1 then TextKind else CircleKind
      {
        assert init[j] == ops[j];
      }
      AlternatingCount(init, k - 1, kind);
      CountAppendPair(init, ops[2 * k - 2], ops[2 * k - 1], kind);
    }
  }

  lemma VertexOpsCounts(f: Frame, k: nat, kind: OpKind)
    requires k <= |f.holders|
    ensures Count(VertexOps(f, k), kind) == if kind == CircleKind || kind == TextKind then k else 0
  {
    var ops := VertexOps(f, k);
    forall j | 0 <= j < |ops|
      ensures KindOf(ops[j]) == if j % 2 == 1 then TextKind else CircleKind
    {
      assert ops[j] == VertexCall(f, j / 2, j % 2 == 1);
    }
    AlternatingCount(ops, k, kind);
  }

  lemma {:induction false} SpokesCount(points: seq<Point>, centre: Point, kind: OpKind)
    ensures Count(Spokes(points, centre), kind) == if kind == LineKind then |points| else 0
    decreases |points|
  {
    if points != [] {
      var init := points[..|points| - 1];
      assert Spokes(points, centre)[..|points| - 1] == Spokes(init, centre);
      SpokesCount(init, centre, kind);
    }
  }

  /** How many calls of each kind a frame of `n` entries makes. */
  function ExpectedCount(n: nat, kind: OpKind): nat
  {
    match kind
    case CircleKind => n
    case TextKind => n
    case LineKind => n
    case PathKind => 3
  }

  lemma FrameCount(f: Frame, kind: OpKind)
    requires |f.holders| > 0
    ensures Count(FrameOps(f), kind) == ExpectedCount(|f.holders|, kind)
  {
    var n := |f.holders|;
    var backs := DrawPath(ClosedPath(BackRing(f)), Paint(f.style.backColor, Fill));
    var graph := DrawPath(ClosedPath(DataRing(f)), Paint(f.style.fillColor, Fill));
    var axis := DrawPath(ClosedPath(BackRing(f)), Paint(f.style.axisColor, Stroke(f.style.axisSize)));
    var vertices := VertexOps(f, n);
    var spokes := Spokes(BackRing(f), Centre(f.width, f.height));
    assert FrameOps(f) == [backs] + [graph] + (vertices + [axis] + spokes);
    CountConcat([backs], [graph], kind);
    CountConcat(vertices, [axis], kind);
    CountConcat(vertices + [axis], spokes, kind);
    CountConcat([backs] + [graph], vertices + [axis] + spokes, kind);
    CountSingle(backs, kind);
    CountSingle(graph, kind);
    CountSingle(axis, kind);
    VertexOpsCounts(f, n, kind);
    SpokesCount(BackRing(f), Centre(f.width, f.height), kind);
  }

  /** A frame of N entries makes N dots, N labels, N spokes and three
      polygons: background, data and axis. */
  lemma FrameCounts(f: Frame)
    requires |f.holders| > 0
    ensures Count(FrameOps(f), CircleKind) == |f.holders|
    ensures Count(FrameOps(f), TextKind) == |f.holders|
    ensures Count(FrameOps(f), LineKind) == |f.holders|
    ensures Count(FrameOps(f), PathKind) == 3
  {
    FrameCount(f, CircleKind);
    FrameCount(f, TextKind);
    FrameCount(f, LineKind);
    FrameCount(f, PathKind);
  }

  /** At full progress, a chart whose every magnitude is 1 draws its data
      polygon exactly on the background polygon. */
  lemma FullDataMatchesBackground(f: Frame)
    requires |f.holders| > 0
    requires f.animValue == 1.0
    requires forall i :: 0 <= i < |f.holders| ==> f.holders[i].value == 1.0
    ensures DataRing(f) == BackRing(f)
  {
    forall i | 0 <= i < |f.holders|
      ensures DataRing(f)[i] == BackRing(f)[i]
    {
      assert DataRadius(f.holders[i].value, FrameRadius(f), f.animValue) == FrameRadius(f) as real;
    }
  }

  /** At progress 0 the whole data polygon sits on the centre, and at any
      progress an entry of magnitude 0 does. */
  lemma DataAtCentre(f: Frame, i: nat)
    requires |f.holders| > 0 && i < |f.holders|
    requires f.width <= INT_MAX && f.height <= INT_MAX
    requires f.animValue == 0.0 || f.holders[i].value == 0.0
    ensures DataRing(f)[i] == Centre(f.width, f.height)
  {
    assert DataRadius(f.holders[i].value, FrameRadius(f), f.animValue) == 0.0;
    ZeroRadiusIsCentre(f.width, f.height, |f.holders|, i, f.trig);
  }

  /** Each data vertex lies no further out than the background radius: its
      data radius is between 0 and the frame radius, as values and progress
      stay in [0, 1]. */
  lemma DataWithinBackground(f: Frame, i: nat)
    requires |f.holders| > 0 && i < |f.holders|
    requires 0.0 <= f.holders[i].value <= 1.0 && 0.0 <= f.animValue <= 1.0
    requires FrameRadius(f) >= 0
    ensures DataRing(f)[i] == ComputePoint(f.width, f.height, |f.holders|, i,
      DataRadius(f.holders[i].value, FrameRadius(f), f.animValue), f.trig)
    ensures 0.0 <= DataRadius(f.holders[i].value, FrameRadius(f), f.animValue) <= FrameRadius(f) as real
  {
    DataRadiusWithinBudget(f.holders[i].value, FrameRadius(f), f.animValue);
  }
}
