/**
 * The column set of the table (enum class Column in mymodel.h).
 * Column i always denotes the same field of a rectangle: in data(), in
 * setData() and in the header table built by the constructor.
 */
module Columns {

  /** The enumerators in declaration order; Count is the sentinel giving the width. */
  datatype Column = PenColor | PenStyle | PenWidth | Left | Top | Width | Height | Count

  /** static_cast<int>(c): declaration order starting at 0, Count is the largest. */
  function ToInt(c: Column): (n: nat)
    ensures n <= 7
    ensures n == 7 <==> c == Count
  {
    match c
    case PenColor => 0
    case PenStyle => 1
    case PenWidth => 2
    case Left => 3
    case Top => 4
    case Width => 5
    case Height => 6
    case Count => 7
  }

  /** columnCountValue(): the width of the table, used by every query and edit. */
  function ColumnCountValue(): (n: nat)
    ensures n == 7
    ensures forall c: Column :: c != Count ==> ToInt(c) < n
  {
    ToInt(Count)
  }

  /** static_cast<Column>(col) for a col in [0, Count]. */
  function OfInt(n: int): (c: Column)
    requires 0 <= n <= ColumnCountValue()
    ensures ToInt(c) == n
  {
    if n == 0 then PenColor
    else if n == 1 then PenStyle
    else if n == 2 then PenWidth
    else if n == 3 then Left
    else if n == 4 then Top
    else if n == 5 then Width
    else if n == 6 then Height
    else Count
  }

  /** The two casts are inverse: distinct enumerators have distinct codes. */
  lemma OfIntToInt(c: Column)
    ensures OfInt(ToInt(c)) == c
  {
  }

  /** The column of an in-range index is a real field, never the sentinel. */
  lemma InRangeIsField(n: int)
    requires 0 <= n < ColumnCountValue()
    ensures OfInt(n) != Count
  {
  }

  /** The spelled-out name of each field column, as the constructor uses for its header. */
  function ColumnName(c: Column): (s: string)
    requires c != Count
  {
    match c
    case PenColor => "PenColor"
    case PenStyle => "PenStyle"
    case PenWidth => "PenWidth"
    case Left => "Left"
    case Top => "Top"
    case Width => "Width"
    case Height => "Height"
  }

  /** The header table the constructor appends, in order. */
  function DefaultHeaders(): (h: seq<string>)
    ensures |h| == ColumnCountValue()
    ensures forall i :: 0 <= i < |h| ==> h[i] == ColumnName(OfInt(i))
    ensures forall c: Column :: c != Count ==> h[ToInt(c)] == ColumnName(c)
  {
    ["PenColor", "PenStyle", "PenWidth", "Left", "Top", "Width", "Height"]
  }
}
