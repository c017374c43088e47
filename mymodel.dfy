/**
 * MyModel: a flat table of rectangles, one row per MyRect, seven fixed
 * columns, and a list of horizontal header strings. Qt signals are recorded
 * in a ghost event log so that contracts can say which notification each
 * operation emits.
 */
module Model {
  import opened Wrappers
  import opened Columns
  import opened Rects
  import opened Variants

  /** The notifications the model emits, in the shape it emits them. */
  datatype Event =
    | DataChanged(top: int, left: int, bottom: int, right: int)
    | HeaderDataChanged(orientation: Orientation, first: int, last: int)
    | BeginInsertRows(first: int, last: int)
    | EndInsertRows

  /** The value data() gives for one field of a row under DisplayRole or EditRole. */
  function CellValue(r: Rect, c: Column): (v: Variant)
    requires c != Count
    ensures c == PenColor <==> v.TextV?
    ensures c != PenColor <==> v.IntV?
  {
    match c
    case PenColor => TextV(Name(r.penColor))
    case PenStyle => IntV(r.penStyle)
    case PenWidth => IntV(r.penWidth)
    case Left => IntV(r.left)
    case Top => IntV(r.top)
    case Width => IntV(r.width)
    case Height => IntV(r.height)
  }

  /** The roles data() answers for a column: Display and Edit everywhere, Decoration on the colour. */
  predicate Answers(c: Column, role: Role) {
    role == DisplayRole || role == EditRole || (role == DecorationRole && c == PenColor)
  }

  /** The row of column c (not the sentinel) with its field replaced by what setData stores. */
  function Edited(r: Rect, c: Column, value: Variant, conv: Conversions): (e: Option<Rect>)
    ensures e.None? <==> c == Count || (c == PenColor && conv.parseColor(Trim(conv.toText(value))).None?)
    ensures e.Some? ==>
      CellValue(e.value, c) == if c == PenColor then TextV(Name(conv.parseColor(Trim(conv.toText(value))).value))
                               else IntV(conv.toInt(value))
    ensures e.Some? ==> forall d :: d != Count && d != c ==> CellValue(e.value, d) == CellValue(r, d)
  {
    match c
    case PenColor =>
      var parsed := conv.parseColor(Trim(conv.toText(value)));
      if parsed.None? then None else Some(r.(penColor := parsed.value))
    case PenStyle => Some(r.(penStyle := conv.toInt(value)))
    case PenWidth => Some(r.(penWidth := conv.toInt(value)))
    case Left => Some(r.(left := conv.toInt(value)))
    case Top => Some(r.(top := conv.toInt(value)))
    case Width => Some(r.(width := conv.toInt(value)))
    case Height => Some(r.(height := conv.toInt(value)))
    case Count => None
  }

  /** The insert position of insertRows: row moved into [0, size]. */
  function ClampRow(row: int, size: nat): (at: nat)
    ensures at <= size
    ensures 0 <= row <= size ==> at == row
    ensures row < 0 ==> at == 0
    ensures row > size ==> at == size
  {
    if row < 0 then 0 else if row > size then size else row
  }

  /** QVector::insert(at, x). */
  function InsertAt(s: seq<Rect>, at: nat, x: Rect): (r: seq<Rect>)
    requires at <= |s|
  {
    s[..at] + [x] + s[at..]
  }

  /** The rows after the loop of insertRows has inserted a default row at `at`, k times. */
  ghost function InsertedTimes(s: seq<Rect>, at: nat, k: nat): (r: seq<Rect>)
    requires at <= |s|
    ensures |r| == |s| + k
  {
    if k == 0 then s else InsertAt(InsertedTimes(s, at, k - 1), at, DefaultRect)
  }

  /** k default rows. */
  function Defaults(k: nat): (r: seq<Rect>)
    ensures |r| == k && forall i :: 0 <= i < k ==> r[i] == DefaultRect
  {
    seq(k, _ => DefaultRect)
  }

  /**
   * The rows after k default rows are inserted at `at`: earlier rows stay,
   * the block [at, at + k) holds defaults, later rows shift down by k.
   */
  function Inserted(s: seq<Rect>, at: nat, k: nat): (r: seq<Rect>)
    requires at <= |s|
    ensures |r| == |s| + k
    ensures forall i :: 0 <= i < at ==> r[i] == s[i]
    ensures forall i :: at <= i < at + k ==> r[i] == DefaultRect
    ensures forall i :: at + k <= i < |r| ==> r[i] == s[i - k]
  {
    s[..at] + Defaults(k) + s[at..]
  }

  /** Inserting one default row k times at the same position yields one contiguous block of k defaults. */
  lemma {:induction false} InsertedTimesIsBlock(s: seq<Rect>, at: nat, k: nat)
    requires at <= |s|
    ensures InsertedTimes(s, at, k) == Inserted(s, at, k)
  {
    if k == 0 {
      assert s[..at] + [] + s[at..] == s;
    } else {
      InsertedTimesIsBlock(s, at, k - 1);
      var prev := InsertedTimes(s, at, k - 1);
      var pre, block, post := s[..at], Defaults(k - 1), s[at..];
      assert prev == pre + block + post;
      assert prev[..at] == pre;
      assert prev[at..] == block + post;
      assert [DefaultRect] + block == Defaults(k);
      calc {
        InsertedTimes(s, at, k);
        InsertAt(prev, at, DefaultRect);
        pre + [DefaultRect] + (block + post);
        pre + ([DefaultRect] + block) + post;
        pre + Defaults(k) + post;
      }
    }
  }

  /** A negative position inserts at the top, exactly as position 0 does. */
  lemma InsertBeforeStartIsAtTop(s: seq<Rect>, row: int, k: nat)
    requires row < 0
    ensures Inserted(s, ClampRow(row, |s|), k) == Defaults(k) + s
  {
    assert s[..0] == [];
    assert s[0..] == s;
  }

  /** A position past the end appends, exactly as position |s| does. */
  lemma InsertPastEndAppends(s: seq<Rect>, row: int, k: nat)
    requires row >= |s|
    ensures Inserted(s, ClampRow(row, |s|), k) == s + Defaults(k)
  {
    assert s[..|s|] == s;
    assert s[|s|..] == [];
  }

  /** Writing back the value just read from a cell with EditRole leaves the row as it was. */
  lemma {:induction false} EditWithCurrentValueKeepsRow(r: Rect, c: Column, conv: Conversions)
    requires c != Count
    requires c == PenColor ==> conv.toText(TextV(Name(r.penColor))) == Name(r.penColor)
    requires c == PenColor ==> conv.parseColor(Name(r.penColor)) == Some(r.penColor)
    requires c != PenColor ==> conv.toInt(CellValue(r, c)) == CellValue(r, c).i
    ensures Edited(r, c, CellValue(r, c), conv) == Some(r)
  {
    if c == PenColor {
      ColorEditWithName(r, r.penColor, conv);
    }
  }

  /** A colour edit with a string that names a colour the parser accepts stores exactly that colour. */
  lemma ColorEditWithName(r: Rect, c: Color, conv: Conversions)
    requires conv.toText(TextV(Name(c))) == Name(c)
    requires conv.parseColor(Name(c)) == Some(c)
    ensures Edited(r, PenColor, TextV(Name(c)), conv) == Some(r.(penColor := c))
  {
    var s := Name(c);
    assert LeadingSpaces(s) == 0;
    assert TrailingSpaces(s) == 0;
    assert s[0..|s|] == s;
    assert Trim(s) == s;
  }

  class MyModel {
    /** m_vector: the rows, position is the only identity. */
    var rows: seq<Rect>
    /** m_headerData: the horizontal header labels. */
    var headers: seq<string>
    /** The signals emitted so far, oldest first. */
    ghost var events: seq<Event>

    /** One header per column, as the constructor asserts. */
    ghost predicate Valid()
      reads this
    {
      |headers| == ColumnCountValue()
    }

    /** An empty table whose headers name the columns in enum order. */
    constructor ()
      ensures Valid()
      ensures rows == [] && events == []
      ensures forall i :: 0 <= i < ColumnCountValue() ==> headers[i] == ColumnName(OfInt(i))
    {
      rows := [];
      headers := DefaultHeaders();
      events := [];
    }

    /** rowCount(): the number of rows at the root, 0 under any valid parent (the table is flat). */
    function RowCount(parent: ModelIndex): (n: int)
      reads this
      ensures n == if parent.IsValid() then 0 else |rows|
    {
      if parent.IsValid() then 0 else |rows|
    }

    /** columnCount(): the width of the table at the root, 0 under any valid parent. */
    function ColumnCount(parent: ModelIndex): (n: int)
      reads this
      ensures parent.IsValid() ==> n == 0
      ensures !parent.IsValid() ==> n == 7 && n == ToInt(Count)
    {
      if parent.IsValid() then 0 else ColumnCountValue()
    }

    /** Whether index addresses a cell of the table. */
    predicate InRange(index: ModelIndex)
      reads this
    {
      index.IsValid() && 0 <= index.row < |rows| && 0 <= index.column < ColumnCountValue()
    }

    /**
     * data(): the field of the addressed cell for DisplayRole and EditRole
     * (the colour as its name, the style as its int code), the colour swatch
     * for DecorationRole on the colour column, and empty for anything else.
     */
    function Data(index: ModelIndex, role: Role): (v: Variant)
      reads this
      ensures !v.Empty? <==> InRange(index) && Answers(OfInt(index.column), role)
      ensures !v.Empty? && role != DecorationRole ==>
        v == CellValue(rows[index.row], OfInt(index.column))
      ensures !v.Empty? && role == DecorationRole ==> v == Swatch(rows[index.row].penColor)
    {
      if !index.IsValid() then Empty
      else if index.row < 0 || index.row >= |rows| then Empty
      else if index.column < 0 || index.column >= ColumnCountValue() then Empty
      else
        var r := rows[index.row];
        var c := OfInt(index.column);
        if role == DisplayRole || role == EditRole then CellValue(r, c)
        else if role == DecorationRole && c == PenColor then Swatch(r.penColor)
        else Empty
    }

    /** headerData(): stored labels for horizontal sections, section + 1 for vertical ones, DisplayRole only. */
    function HeaderData(section: int, orientation: Orientation, role: Role): (v: Variant)
      reads this
      ensures role != DisplayRole ==> v == Empty
      ensures role == DisplayRole && orientation == Vertical ==> v == IntV(section + 1)
      ensures role == DisplayRole && orientation == Horizontal ==>
        v == if 0 <= section < |headers| then TextV(headers[section]) else Empty
    {
      if role != DisplayRole then Empty
      else if orientation == Horizontal then
        if 0 <= section < |headers| then TextV(headers[section]) else Empty
      else IntV(section + 1)
    }

    /** flags(): nothing for an invalid index, otherwise the base class flags plus editable. */
    function Flags(index: ModelIndex, base: set<ItemFlag>): (f: set<ItemFlag>)
      ensures !index.IsValid() ==> f == {}
      ensures index.IsValid() ==> ItemIsEditable in f && base <= f && f - base <= {ItemIsEditable}
    {
      if !index.IsValid() then {} else base + {ItemIsEditable}
    }

    /** The conditions under which setData looks at the value at all. */
    predicate EditTarget(index: ModelIndex, role: Role)
      reads this
    {
      role == EditRole && InRange(index)
    }

    /**
     * setData(): with EditRole on an in-range cell, stores the converted
     * value into that one field and emits dataChanged for that one cell; a
     * colour that does not parse, another role or a bad index changes nothing.
     */
    method SetData(index: ModelIndex, value: Variant, role: Role, conv: Conversions) returns (ok: bool)
      modifies this
      ensures headers == old(headers)
      ensures ok <==> old(EditTarget(index, role)) &&
                      Edited(old(rows)[index.row], OfInt(index.column), value, conv).Some?
      ensures ok ==> rows == old(rows)[index.row := Edited(old(rows)[index.row], OfInt(index.column), value, conv).value]
      ensures ok ==> events == old(events) + [DataChanged(index.row, index.column, index.row, index.column)]
      ensures !ok ==> rows == old(rows) && events == old(events)
    {
      if !index.IsValid() {
        return false;
      }
      if role != EditRole {
        return false;
      }
      var row, col := index.row, index.column;
      if row < 0 || row >= |rows| {
        return false;
      }
      if col < 0 || col >= ColumnCountValue() {
        return false;
      }
      var r := rows[row];
      match OfInt(col) {
      case PenColor =>
        var s := Trim(conv.toText(value));
        var c := conv.parseColor(s);
        if c.None? {
          return false;
        }
        r := r.(penColor := c.value);
      case PenStyle =>
        r := r.(penStyle := conv.toInt(value));
      case PenWidth =>
        r := r.(penWidth := conv.toInt(value));
      case Left =>
        r := r.(left := conv.toInt(value));
      case Top =>
        r := r.(top := conv.toInt(value));
      case Width =>
        r := r.(width := conv.toInt(value));
      case Height =>
        r := r.(height := conv.toInt(value));
      case Count =>
        return false;
      }
      rows := rows[row := r];
      events := events + [DataChanged(row, col, row, col)];
      return true;
    }

    /** setHeaderData(): with EditRole on an in-range horizontal section, replaces that one label. */
    method SetHeaderData(section: int, orientation: Orientation, value: Variant, role: Role, conv: Conversions)
      returns (ok: bool)
      requires Valid()
      modifies this
      ensures Valid()
      ensures rows == old(rows)
      ensures ok <==> role == EditRole && orientation == Horizontal && 0 <= section < |old(headers)|
      ensures ok ==> headers == old(headers)[section := conv.toText(value)]
      ensures ok ==> events == old(events) + [HeaderDataChanged(orientation, section, section)]
      ensures !ok ==> headers == old(headers) && events == old(events)
    {
      if role != EditRole {
        return false;
      }
      if orientation != Horizontal {
        return false;
      }
      if section < 0 || section >= |headers| {
        return false;
      }
      headers := headers[section := conv.toText(value)];
      events := events + [HeaderDataChanged(orientation, section, section)];
      return true;
    }

    /**
     * insertRows(): for a positive count at the root, inserts count default
     * rows at the clamped position, bracketed by begin/end insert notifications.
     */
    method InsertRows(row: int, count: int, parent: ModelIndex) returns (ok: bool)
      modifies this
      ensures headers == old(headers)
      ensures ok <==> !parent.IsValid() && count > 0
      ensures ok ==> RowCount(Invalid) == old(RowCount(Invalid)) + count
      ensures ok ==> var at := ClampRow(row, |old(rows)|);
        rows == Inserted(old(rows), at, count) &&
        events == old(events) + [BeginInsertRows(at, at + count - 1), EndInsertRows]
      ensures !ok ==> rows == old(rows) && events == old(events)
    {
      if parent.IsValid() {
        return false;
      }
      if count <= 0 {
        return false;
      }
      var at := row;
      if at < 0 {
        at := 0;
      }
      if at > |rows| {
        at := |rows|;
      }
      events := events + [BeginInsertRows(at, at + count - 1)];
      ghost var before := rows;
      var i := 0;
      while i < count
        invariant 0 <= i <= count
        invariant rows == InsertedTimes(before, at, i)
        invariant headers == old(headers)
        invariant events == old(events) + [BeginInsertRows(at, at + count - 1)]
      {
        rows := InsertAt(rows, at, DefaultRect);
        i := i + 1;
      }
      InsertedTimesIsBlock(before, at, count);
      events := events + [EndInsertRows];
      return true;
    }

    /**
     * slotAddData(): appends rect as a new last row (insertRows at rowCount(),
     * then the write), and emits dataChanged over all columns of that row.
     */
    method SlotAddData(rect: Rect)
      modifies this
      ensures headers == old(headers)
      ensures rows == old(rows) + [rect]
      ensures RowCount(Invalid) == old(RowCount(Invalid)) + 1
      ensures var n := |old(rows)|;
        events == old(events) + [BeginInsertRows(n, n), EndInsertRows, DataChanged(n, 0, n, ColumnCountValue() - 1)]
    {
      var row := |rows|;
      var ok := InsertRows(row, 1, Invalid);
      if !ok {
        return;
      }
      rows := rows[row := rect];
      events := events + [DataChanged(row, 0, row, ColumnCountValue() - 1)];
    }

    /** test(): appends a red solid rectangle and a green dotted one. */
    method Test()
      modifies this
      ensures headers == old(headers)
      ensures rows == old(rows) + [Rect(Red, SolidLine, 2, 100, 100, 100, 100),
                                   Rect(Green, DotLine, 3, 10, 10, 100, 200)]
      ensures var n := |old(rows)|;
        events == old(events) + [BeginInsertRows(n, n), EndInsertRows, DataChanged(n, 0, n, 6),
                                 BeginInsertRows(n + 1, n + 1), EndInsertRows, DataChanged(n + 1, 0, n + 1, 6)]
    {
      SlotAddData(Rect(Red, SolidLine, 2, 100, 100, 100, 100));
      SlotAddData(Rect(Green, DotLine, 3, 10, 10, 100, 200));
    }
  }

  /** DisplayRole and EditRole give the same value for every cell. */
  lemma DisplayEqualsEdit(m: MyModel, index: ModelIndex)
    ensures m.Data(index, DisplayRole) == m.Data(index, EditRole)
  {
  }

  /** The horizontal headers of a fresh model are the column names, in column order; vertical ones count from 1. */
  lemma {:induction false} FreshHeaders(m: MyModel, section: int)
    requires m.Valid()
    requires forall i :: 0 <= i < ColumnCountValue() ==> m.headers[i] == ColumnName(OfInt(i))
    ensures 0 <= section < ColumnCountValue() ==>
      m.HeaderData(section, Horizontal, DisplayRole) == TextV(ColumnName(OfInt(section)))
    ensures m.HeaderData(section, Vertical, DisplayRole) == IntV(section + 1)
  {
  }

  /** A client of the contracts above: what a view can rely on after a few calls. */
  method Scenario(conv: Conversions)
    requires conv.parseColor(Trim(conv.toText(TextV("NOT_A_COLOR")))) == None
    requires conv.toInt(IntV(777)) == 777
  {
    var m := new MyModel();
    assert m.RowCount(Invalid) == 0 && m.ColumnCount(Invalid) == 7;
    assert m.HeaderData(1, Horizontal, DisplayRole) == TextV("PenStyle");
    var ok := m.InsertRows(-100, 1, Invalid);
    assert ok && m.rows == [DefaultRect];
    ok := m.InsertRows(999, 2, Invalid);
    assert ok && |m.rows| == 3 && m.rows[2] == DefaultRect;
    ok := m.InsertRows(0, 0, Invalid);
    assert !ok;
    m.SlotAddData(Rect(Red, DotLine, 5, 10, 20, 30, 40));
    assert m.Data(At(3, 1), EditRole) == IntV(DotLine);
    assert m.Data(At(3, 0), DecorationRole) == Swatch(Red);
    assert m.Data(At(3, 1), DecorationRole) == Empty;
    assert m.Data(At(4, 0), DisplayRole) == Empty;
    var before := m.rows;
    ok := m.SetData(At(3, 0), TextV("NOT_A_COLOR"), EditRole, conv);
    assert !ok && m.rows == before;
    ok := m.SetData(At(3, 3), IntV(777), EditRole, conv);
    assert ok && m.Data(At(3, 3), DisplayRole) == IntV(777);
    assert m.Data(At(3, 4), DisplayRole) == IntV(20);
    ok := m.SetData(At(3, 3), IntV(777), DisplayRole, conv);
    assert !ok;
  }
}
