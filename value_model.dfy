/** The chart's data: the ValueHolder entries and the Adapter that supplies
    them (PolygonGraphView.ValueHolder and PolygonGraphView.Adapter). */
module ValueModel {
  /** android.graphics.Color constants, as the signed 32-bit ARGB ints Java holds. */
  const BLACK: int := -0x0100_0000  // 0xFF000000
  const BLUE: int := -0x00FF_FF01   // 0xFF0000FF
  const WHITE: int := -1            // 0xFFFFFFFF

  /** One datum of the chart: a label, a magnitude and a colour. */
  datatype ValueHolder = ValueHolder(title: string, value: real, color: int)

  function Min(a: real, b: real): real { if a <= b then a else b }
  function Max(a: real, b: real): real { if a >= b then a else b }

  /** The ValueHolder constructor: the magnitude is clamped into [0, 1]. */
  function MakeValueHolder(title: string, value: real, color: int): (h: ValueHolder)
    ensures h.title == title && h.color == color
    ensures 0.0 <= h.value <= 1.0
    ensures 0.0 <= value <= 1.0 ==> h.value == value
    ensures value < 0.0 ==> h.value == 0.0
    ensures value > 1.0 ==> h.value == 1.0
  {
    ValueHolder(title, Min(Max(value, 0.0), 1.0), color)
  }

  /** The data source: its reported size and the holder it creates for a position. */
  datatype Adapter = Adapter(size: int, holderAt: int -> ValueHolder)

  /** The dataset an assignment from `adapter` materialises: the holder the
      adapter creates for every position, in order. */
  function Snapshot(adapter: Adapter): (s: seq<ValueHolder>)
    requires adapter.size >= 0
    ensures |s| == adapter.size
    ensures forall i :: 0 <= i < adapter.size ==> s[i] == adapter.holderAt(i)
  {
    seq(adapter.size, i => adapter.holderAt(i))
  }

  function Digit(d: nat): char
    requires d < 10
  {
    (('0' as int) + d) as char
  }

  /** Java's decimal rendering of a non-negative `int`, as in `"label" + i`. */
  function DecimalString(n: nat): (s: string)
    ensures |s| >= 1
    ensures forall k :: 0 <= k < |s| ==> '0' <= s[k] <= '9'
    ensures n < 10 ==> |s| == 1
    decreases n
  {
    (if n < 10 then "" else DecimalString(n / 10)) + [Digit(n % 10)]
  }

  /** The number a string of decimal digits denotes. */
  function DecimalValue(s: string): nat
    requires forall k :: 0 <= k < |s| ==> '0' <= s[k] <= '9'
  {
    if s == [] then 0
    else DecimalValue(s[..|s| - 1]) * 10 + (s[|s| - 1] as int - '0' as int)
  }

  /** Reading back a rendered number gives the number. */
  lemma {:induction false} DecimalRoundTrip(n: nat)
    ensures DecimalValue(DecimalString(n)) == n
    decreases n
  {
    var s := DecimalString(n);
    assert s[..|s| - 1] == if n < 10 then "" else DecimalString(n / 10);
    if n >= 10 {
      DecimalRoundTrip(n / 10);
    }
  }

  const EDIT_MODE_SIZE: nat := 5
  const EDIT_MODE_VALUE: real := 0.8

  /** The placeholder holder setupForEditMode creates at position `i`. */
  function EditModeHolder(i: nat): ValueHolder
  {
    MakeValueHolder("label" + DecimalString(i), EDIT_MODE_VALUE, BLACK)
  }

  /** The placeholder dataset of design-time preview. */
  function EditModeHolders(): (s: seq<ValueHolder>)
    ensures |s| == EDIT_MODE_SIZE
    ensures forall i :: 0 <= i < |s| ==> s[i] == EditModeHolder(i)
  {
    seq(EDIT_MODE_SIZE, (i: int) requires 0 <= i => EditModeHolder(i))
  }

  /** The preview dataset has five entries "label0" to "label4", all black
      and all of magnitude 0.8. */
  lemma EditModeDataset()
    ensures |EditModeHolders()| == 5
    ensures forall i :: 0 <= i < 5 ==>
      && EditModeHolders()[i].value == 0.8
      && EditModeHolders()[i].color == BLACK
      && EditModeHolders()[i].title == "label" + [Digit(i)]
  {
    forall i | 0 <= i < 5
      ensures EditModeHolders()[i].title == "label" + [Digit(i)]
    {
      assert DecimalString(i) == [Digit(i)];
    }
  }

  /** No two preview entries share a title. */
  lemma EditModeTitlesDistinct()
    ensures forall i, j :: 0 <= i < j < 5 ==> EditModeHolders()[i].title != EditModeHolders()[j].title
  {
    EditModeDataset();
    forall i, j | 0 <= i < j < 5
      ensures EditModeHolders()[i].title != EditModeHolders()[j].title
    {
      assert EditModeHolders()[i].title[5] == Digit(i);
      assert EditModeHolders()[j].title[5] == Digit(j);
    }
  }
}
