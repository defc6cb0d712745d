/** The view's configuration, its radius budget and the label-anchor rule of
    PolygonGraphView.onDraw and drawAxis. */
module Layout {
  import opened JavaSemantics
  import opened ValueModel
  import opened Geometry
  import opened Drawing

  /** The configuration fields of PolygonGraphView, as the theme attributes
      set them. */
  datatype Style = Style(
    backColor: int, fillColor: int, axisColor: int, axisSize: int,
    dotSize: int, dotPadding: int, labelSize: int, labelPadding: int,
    animDuration: int)

  /** The defaults when no attribute is given. */
  const DEFAULT_STYLE: Style := Style(WHITE, BLUE, BLACK, 1, 8, 20, 30, 20, 1000)

  /** Every field is a Java `int`. */
  predicate StyleValid(s: Style)
  {
    && IsInt32(s.backColor) && IsInt32(s.fillColor) && IsInt32(s.axisColor)
    && IsInt32(s.axisSize) && IsInt32(s.dotSize) && IsInt32(s.dotPadding)
    && IsInt32(s.labelSize) && IsInt32(s.labelPadding) && IsInt32(s.animDuration)
  }

  /** The fixed margin onDraw keeps besides the dot and the label. */
  const RADIUS_MARGIN: int := 60

  function MinInt(a: int, b: int): int { if a <= b then a else b }

  /** onDraw's radius, `Math.min(w, h) / 2 - (60 + dotSize + labelSize)`,
      evaluated step by step in wrapping `int` arithmetic. The width and
      height are non-negative, so Dafny's `/` agrees with Java's. */
  function Radius(width: nat, height: nat, style: Style): (r: int)
    ensures IsInt32(r)
  {
    Int32(MinInt(width, height) / 2 - Int32(Int32(RADIUS_MARGIN + style.dotSize) + style.labelSize))
  }

  /** The radius is the exact budget, wrapped once; when the budget fits in
      an `int` the radius is the budget itself. */
  lemma RadiusBudget(width: nat, height: nat, style: Style)
    ensures Radius(width, height, style)
         == Int32(MinInt(width, height) / 2 - (RADIUS_MARGIN + style.dotSize + style.labelSize))
    ensures IsInt32(MinInt(width, height) / 2 - (RADIUS_MARGIN + style.dotSize + style.labelSize)) ==>
      Radius(width, height, style) == MinInt(width, height) / 2 - (RADIUS_MARGIN + style.dotSize + style.labelSize)
  {
    var m := MinInt(width, height) / 2;
    Int32AddWrapped(RADIUS_MARGIN + style.dotSize, style.labelSize);
    Int32SubWrapped(m, Int32(RADIUS_MARGIN + style.dotSize) + style.labelSize);
    Int32SubWrapped(m, RADIUS_MARGIN + style.dotSize + style.labelSize);
  }

  /** With the default dot and label sizes, 98 pixels are kept for margin. */
  lemma DefaultRadius(width: nat, height: nat)
    requires width <= INT_MAX && height <= INT_MAX
    ensures Radius(width, height, DEFAULT_STYLE) == MinInt(width, height) / 2 - 98
  {
    RadiusBudget(width, height, DEFAULT_STYLE);
  }

  /** An `int` sum of the radius and paddings, as Java wraps it. */
  function OffsetRadius(radius: int, extra: int): int
  {
    Int32(radius + extra)
  }

  /** drawAxis adds the label offsets one at a time, `radius + dotSize +
      dotPadding + labelPadding`, each addition wrapping; that equals one
      wrap of the exact sum. */
  lemma LabelRadiusStepwise(radius: int, dotSize: int, dotPadding: int, labelPadding: int)
    ensures Int32(Int32(Int32(radius + dotSize) + dotPadding) + labelPadding)
         == OffsetRadius(radius, dotSize + dotPadding + labelPadding)
  {
    Int32AddWrapped(Int32(radius + dotSize) + dotPadding, labelPadding);
    Int32AddWrapped(radius + dotSize, dotPadding + labelPadding);
  }

  /** drawGraph's radius for one datum, `value * radius * animValue`. */
  function DataRadius(value: real, radius: int, animValue: real): (d: real)
    ensures value == 0.0 || animValue == 0.0 ==> d == 0.0
    ensures value == 1.0 && animValue == 1.0 ==> d == radius as real
  {
    value * (radius as real) * animValue
  }

  /** Scaling by a factor in [0, 1] keeps a number between 0 and itself. */
  lemma ScaleByUnit(a: real, x: real)
    requires 0.0 <= a <= 1.0
    ensures x >= 0.0 ==> 0.0 <= a * x <= x
    ensures x <= 0.0 ==> x <= a * x <= 0.0
  {
    assert x - a * x == (1.0 - a) * x;
  }

  /** With a magnitude and a progress in [0, 1], the data radius lies between
      0 and the full radius, on the radius's own side of 0. */
  lemma DataRadiusWithinBudget(value: real, radius: int, animValue: real)
    requires 0.0 <= value <= 1.0 && 0.0 <= animValue <= 1.0
    ensures radius >= 0 ==> 0.0 <= DataRadius(value, radius, animValue) <= radius as real
    ensures radius <= 0 ==> radius as real <= DataRadius(value, radius, animValue) <= 0.0
  {
    var r := radius as real;
    ScaleByUnit(value, r);
    ScaleByUnit(animValue, value * r);
  }

  /** Where a label's text sits vertically relative to its anchor point. */
  datatype Vertical =
    | TextAbove   // not moved: the baseline is at the point
    | TextMiddle  // moved down by half the text height
    | TextBelow   // moved down by the full text height

  /** Where a label's text sits horizontally relative to its anchor point. */
  datatype Horizontal =
    | TextRight   // not moved: the text starts at the point
    | TextCentred // moved left by half the text width
    | TextLeft    // moved left by the full text width

  /** drawAxis's `half = (size / 2) + 1`: an `int` quotient, stored in a
      float, so always a whole number. */
  function HalfOf(size: nat): (h: nat)
    ensures 1 <= h && size < 2 * h <= size + 2
  {
    size / 2 + 1
  }

  /** drawAxis's `quad = half / 2`: a float quotient, which ends in .5 when
      `half` is odd. */
  function QuadOf(size: nat): (q: real)
    ensures HalfOf(size) % 2 == 0 <==> q == (HalfOf(size) / 2) as real
  {
    (HalfOf(size) as real) / 2.0
  }

  /** The vertical rule of drawAxis for label `i` of `size`. */
  function VerticalOf(size: nat, i: nat): Vertical
  {
    var quad := QuadOf(size);
    if quad < i as real && (i as real) < (size as real) - quad then TextBelow
    else if i as real == quad || i as real == (size as real) - quad then TextMiddle
    else TextAbove
  }

  /** The horizontal rule of drawAxis for label `i` of `size`. Java takes
      `i % half` in float arithmetic; `half` is whole and `i` is not
      negative, so this is the `int` remainder. */
  function HorizontalOf(size: nat, i: nat): Horizontal
  {
    if i % HalfOf(size) == 0 then TextCentred
    else if i > HalfOf(size) then TextLeft
    else TextRight
  }

  function YShift(v: Vertical, textHeight: int): int
  {
    match v
    case TextAbove => 0
    case TextMiddle => DivTwo(textHeight)
    case TextBelow => textHeight
  }

  function XShift(h: Horizontal, textWidth: int): int
  {
    match h
    case TextRight => 0
    case TextCentred => -DivTwo(textWidth)
    case TextLeft => -textWidth
  }

  /** Label `i`'s text origin: its base point moved by the two rules. */
  function PlaceLabel(base: Point, size: nat, i: nat, bounds: TextBounds): (p: Point)
    ensures bounds.width >= 0 ==> base.x - bounds.width <= p.x <= base.x
    ensures bounds.height >= 0 ==> base.y <= p.y <= base.y + bounds.height
  {
    Point(base.x + XShift(HorizontalOf(size, i), bounds.width),
          base.y + YShift(VerticalOf(size, i), bounds.height))
  }

  /** The three vertical cases are told apart by their conditions alone:
      strictly between quad and size - quad, equal to one of them, or
      neither. */
  lemma VerticalCases(size: nat, i: nat)
    ensures VerticalOf(size, i) == TextBelow <==>
      QuadOf(size) < i as real < (size as real) - QuadOf(size)
    ensures VerticalOf(size, i) == TextMiddle <==>
      (i as real == QuadOf(size) || i as real == (size as real) - QuadOf(size))
    ensures VerticalOf(size, i) == TextAbove <==>
      !(QuadOf(size) < i as real < (size as real) - QuadOf(size)) &&
      i as real != QuadOf(size) && i as real != (size as real) - QuadOf(size)
  {
  }

  /** Vertex 0 of a chart of two or more: horizontally centred, not moved
      vertically. */
  lemma FirstLabelCentredOnTop(size: nat, base: Point, bounds: TextBounds)
    requires size >= 2
    ensures HorizontalOf(size, 0) == TextCentred
    ensures VerticalOf(size, 0) == TextAbove
    ensures PlaceLabel(base, size, 0, bounds) == Point(base.x - DivTwo(bounds.width), base.y)
  {
    assert HalfOf(size) <= size;
    assert QuadOf(size) >= 1.0;
    assert (size as real) - QuadOf(size) > 0.0;
  }

  /** Exactly two vertices can have a centred label: vertex 0 and vertex
      `half` (the latter only when it exists, that is for size >= 3). */
  lemma CentredLabels(size: nat, i: nat)
    requires i < size
    ensures HorizontalOf(size, i) == TextCentred <==> (i == 0 || i == HalfOf(size))
  {
    var h := HalfOf(size);
    assert i == h * (i / h) + i % h;
    assert size < 2 * h;
  }

  /** The vertical rule is mirror-symmetric: vertex i and vertex size - i,
      reflections of each other across the vertical axis, get the same
      vertical placement. */
  lemma VerticalMirror(size: nat, i: nat)
    requires 0 < i < size
    ensures VerticalOf(size, i) == VerticalOf(size, size - i)
  {
  }

  /** A label is vertically centred only when quad is a whole number, that is
      when half is even; then vertex quad is one. */
  lemma MiddleNeedsWholeQuad(size: nat)
    requires size >= 2
    ensures HalfOf(size) % 2 == 0 ==>
      HalfOf(size) / 2 < size && VerticalOf(size, HalfOf(size) / 2) == TextMiddle
    ensures forall i: nat :: VerticalOf(size, i) == TextMiddle ==> HalfOf(size) % 2 == 0
  {
    var h := HalfOf(size);
    forall i: nat | VerticalOf(size, i) == TextMiddle
      ensures h % 2 == 0
    {
      if i as real == QuadOf(size) {
        assert 2 * i == h;
      } else {
        assert 2 * (size - i) == h;
      }
    }
  }

  /** The four-vertex chart: quad is 1.5, so only vertex 2 (the bottom) is
      moved down and no label is vertically centred; vertices 0 and 3 are
      horizontally centred. */
  lemma FourVertexLabels()
    ensures QuadOf(4) == 1.5 && HalfOf(4) == 3
    ensures VerticalOf(4, 0) == TextAbove && VerticalOf(4, 1) == TextAbove
    ensures VerticalOf(4, 2) == TextBelow && VerticalOf(4, 3) == TextAbove
    ensures HorizontalOf(4, 0) == TextCentred && HorizontalOf(4, 1) == TextRight
    ensures HorizontalOf(4, 2) == TextRight && HorizontalOf(4, 3) == TextCentred
  {
  }
}
