/** The drawing layer the view talks to: the paths it builds and the calls it
    makes on the canvas. */
module Drawing {
  import opened Geometry

  /** One command of an android.graphics.Path. */
  datatype PathOp = MoveTo(to: Point) | LineTo(to: Point)

  datatype PaintStyle = Fill | Stroke(width: int)

  /** The paint settings that decide what a path draw looks like. */
  datatype Paint = Paint(color: int, style: PaintStyle)

  /** The bounds Paint.getTextBounds reports for a label. */
  datatype TextBounds = TextBounds(width: int, height: int)

  /** One call on the canvas. */
  datatype DrawOp =
    | Circle(center: Point, radius: int, color: int)
    | Text(text: string, at: Point, color: int)
    | DrawPath(path: seq<PathOp>, paint: Paint)
    | Line(from: Point, to: Point)

  /** A canvas, reduced to the record of the calls made on it. */
  class Canvas {
    var ops: seq<DrawOp>

    constructor ()
      ensures ops == []
    {
      ops := [];
    }

    method DrawCircle(center: Point, radius: int, color: int)
      modifies this
      ensures ops == old(ops) + [Circle(center, radius, color)]
    {
      ops := ops + [Circle(center, radius, color)];
    }

    method DrawText(text: string, at: Point, color: int)
      modifies this
      ensures ops == old(ops) + [Text(text, at, color)]
    {
      ops := ops + [Text(text, at, color)];
    }

    method DrawPathWith(path: seq<PathOp>, paint: Paint)
      modifies this
      ensures ops == old(ops) + [DrawPath(path, paint)]
    {
      ops := ops + [DrawPath(path, paint)];
    }

    method DrawLine(from: Point, to: Point)
      modifies this
      ensures ops == old(ops) + [Line(from, to)]
    {
      ops := ops + [Line(from, to)];
    }
  }

  /** A line to each point, in order. */
  function LinesTo(points: seq<Point>): seq<PathOp>
  {
    seq(|points|, k requires 0 <= k < |points| => LineTo(points[k]))
  }

  /** drawPoly's path: a move to the first point, a line to every point in
      order (the first one included) and a line back to the first. */
  function ClosedPath(points: seq<Point>): (path: seq<PathOp>)
    requires |points| > 0
    ensures |path| == |points| + 2
    ensures path[0] == MoveTo(points[0]) && path[|path| - 1] == LineTo(points[0])
    ensures forall k :: 0 <= k < |points| ==> path[k + 1] == LineTo(points[k])
  {
    [MoveTo(points[0])] + LinesTo(points) + [LineTo(points[0])]
  }

  /** After the opening move, command k of the closed path ends at point
      (k - 1) mod N: the lines go round the polygon in order and come back
      to the first point. The first line, to point 0 itself, has length zero. */
  lemma ClosedPathGoesRound(points: seq<Point>)
    requires |points| > 0
    ensures forall k :: 1 <= k < |points| + 2 ==> ClosedPath(points)[k].to == points[(k - 1) % |points|]
  {
    var n, path := |points|, ClosedPath(points);
    forall k | 1 <= k < n + 2
      ensures path[k].to == points[(k - 1) % n]
    {
      if k <= n {
        assert (k - 1) % n == k - 1;
        assert path[(k - 1) + 1] == LineTo(points[k - 1]);
      } else {
        assert (k - 1) % n == 0;
      }
    }
  }

  datatype OpKind = CircleKind | TextKind | PathKind | LineKind

  function KindOf(op: DrawOp): OpKind
  {
    match op
    case Circle(_, _, _) => CircleKind
    case Text(_, _, _) => TextKind
    case DrawPath(_, _) => PathKind
    case Line(_, _) => LineKind
  }

  /** The number of calls of one kind in a record. */
  function Count(ops: seq<DrawOp>, kind: OpKind): nat
  {
    if ops == [] then 0
    else Count(ops[..|ops| - 1], kind) + (if KindOf(ops[|ops| - 1]) == kind then 1 else 0)
  }

  /** A record of one call counts that call's kind once. */
  lemma CountSingle(op: DrawOp, kind: OpKind)
    ensures Count([op], kind) == if KindOf(op) == kind then 1 else 0
  {
    assert [op][..0] == [];
  }

  /** Appending two calls adds their kinds to the count. */
  lemma CountAppendPair(ops: seq<DrawOp>, a: DrawOp, b: DrawOp, kind: OpKind)
    ensures Count(ops + [a, b], kind)
         == Count(ops, kind) + (if KindOf(a) == kind then 1 else 0) + (if KindOf(b) == kind then 1 else 0)
  {
    assert (ops + [a, b])[..|ops| + 1] == ops + [a];
    assert (ops + [a])[..|ops|] == ops;
  }

  /** Counting splits over concatenation. */
  lemma {:induction false} CountConcat(a: seq<DrawOp>, b: seq<DrawOp>, kind: OpKind)
    ensures Count(a + b, kind) == Count(a, kind) + Count(b, kind)
    decreases |b|
  {
    if b != [] {
      assert (a + b)[..|a + b| - 1] == a + b[..|b| - 1];
      CountConcat(a, b[..|b| - 1], kind);
    } else {
      assert a + b == a;
    }
  }
}
