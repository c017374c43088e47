/**
 * The Qt vocabulary the model speaks: model indexes, roles, orientations,
 * the values a QVariant can carry here, and the library conversions the model
 * calls but whose code is not part of this model.
 */
module Variants {
  import opened Wrappers
  import opened Rects

  /**
   * QModelIndex: either the invalid root index or a (row, column) position.
   * Like QModelIndex::isValid, a position with a negative row or column is invalid.
   */
  datatype ModelIndex = Invalid | At(row: int, column: int) {
    predicate IsValid() { At? && row >= 0 && column >= 0 }
  }

  /** Qt::ItemDataRole codes. */
  type Role = int
  const DisplayRole: Role := 0
  const DecorationRole: Role := 1
  const EditRole: Role := 2

  datatype Orientation = Horizontal | Vertical

  /**
   * A QVariant as this model produces or receives it: empty, an int, a string,
   * a colour, or an icon filled with one colour (the 32x32 swatch).
   */
  datatype Variant = Empty | IntV(i: int) | TextV(s: string) | ColorV(c: Color) | Swatch(fill: Color)

  /**
   * The Qt library calls the model makes on incoming values:
   * QVariant::toString, QVariant::toInt, and QColor(QString) followed by
   * isValid() (None when the colour is not valid).
   */
  datatype Conversions = Conversions(toText: Variant -> string,
                                     toInt: Variant -> int,
                                     parseColor: string -> Option<Color>)

  /** Qt::ItemFlag values the model composes. */
  datatype ItemFlag = ItemIsSelectable | ItemIsEditable | ItemIsEnabled | ItemNeverHasChildren

  /** White space as QString::trimmed removes it (the ASCII part of QChar::isSpace). */
  predicate IsSpace(ch: char) {
    ch == ' ' || ch == '\t' || ch == '\n' || ch == '\r' || ch == '\U{B}' || ch == '\U{C}'
  }

  /** The number of white-space characters s starts with. */
  function LeadingSpaces(s: string): (n: nat)
    ensures n <= |s|
    ensures forall k :: 0 <= k < n ==> IsSpace(s[k])
    ensures n < |s| ==> !IsSpace(s[n])
  {
    if s != [] && IsSpace(s[0]) then 1 + LeadingSpaces(s[1..]) else 0
  }

  /** The number of white-space characters s ends with. */
  function TrailingSpaces(s: string): (n: nat)
    ensures n <= |s|
    ensures forall k :: |s| - n <= k < |s| ==> IsSpace(s[k])
    ensures n < |s| ==> !IsSpace(s[|s| - 1 - n])
  {
    if s != [] && IsSpace(s[|s| - 1]) then 1 + TrailingSpaces(s[..|s| - 1]) else 0
  }

  /**
   * QString::trimmed: the slice of s starting after its leading white space
   * that neither starts nor ends with white space, with only white space cut
   * off around it.
   */
  function Trim(s: string): (r: string)
    ensures r == [] || (!IsSpace(r[0]) && !IsSpace(r[|r| - 1]))
    ensures LeadingSpaces(s) + |r| <= |s| && r == s[LeadingSpaces(s)..LeadingSpaces(s) + |r|]
    ensures forall k :: 0 <= k < LeadingSpaces(s) ==> IsSpace(s[k])
    ensures forall k :: LeadingSpaces(s) + |r| <= k < |s| ==> IsSpace(s[k])
  {
    var lead := LeadingSpaces(s);
    if lead == |s| then []
    else
      var trail := TrailingSpaces(s);
      assert lead < |s| - trail;
      s[lead..|s| - trail]
  }

  /** Trimming twice is trimming once. */
  lemma TrimIdempotent(s: string)
    ensures Trim(Trim(s)) == Trim(s)
  {
    var u := Trim(s);
    assert LeadingSpaces(u) == 0;
    assert u != [] ==> TrailingSpaces(u) == 0;
  }
}
