# MyModel: a verified model of the rectangle table

This project models `MyModel`, the Qt table model of the rectangle editor.
The model holds an ordered list of rectangles (`m_vector`), one row per
rectangle. Each row has seven fixed columns, in this order: PenColor,
PenStyle, PenWidth, Left, Top, Width, Height. The model also holds the
horizontal header labels (`m_headerData`). Views read cells by
(row, column, role). Edits arrive through `setData`. Rows are inserted with
`insertRows` and appended with `slotAddData`. Every change emits a Qt signal.

Files:

- `columns.dfy` (module `Columns`): the `Column` enum, its integer codes,
  the table width and the header table.
- `rects.dfy` (module `Rects`): the row record `Rect`, its default value
  (`DefaultRect`), the RGB colour and its `"#rrggbb"` name. `ParseName` is a
  reference reader for that name, and the two are proved to be a bijection.
- `variants.dfy` (module `Variants`): model indexes, roles, orientations and
  the values a `QVariant` carries here. It also holds `Conversions`, the Qt
  library calls the model makes on incoming values, and `Trim`, which stands
  for `QString::trimmed`.
- `mymodel.dfy` (module `Model`): the class `MyModel` with its queries and
  mutators, the specification functions the mutators are proved against,
  and the lemmas about them.
- `wrappers.dfy`: the `Option` type.

The class keeps the rows in a `seq<Rect>` field and the headers in a
`seq<string>` field. Each mutator states its whole new state in terms of the
old one. Qt signals are recorded in a ghost event log, `events`. The log
holds `DataChanged(top, left, bottom, right)`, `HeaderDataChanged`, and the
`BeginInsertRows(first, last)` / `EndInsertRows` pair. Each mutator's
contract states exactly which events it appends.

An index with a negative row or column is invalid, as `QModelIndex::isValid`
makes it (`ModelIndex.IsValid`). So `RowCount`, `Flags` and `InsertRows` treat
it like the root index.

The code and its documentation disagree in a few places. The model follows
the code:

- For the colour column, `data()` returns the colour's name under both
  DisplayRole and EditRole. For the style column it returns the integer code
  under both roles (mymodel.cpp:88-97). The header comment (mymodel.h:58-67)
  and tests/tst_mymodel.cpp expect a `QColor` under EditRole and a style
  name under DisplayRole.
- `setData` emits `dataChanged` even when the new value equals the old one
  (mymodel.cpp:195). The tests expect no signal in that case
  (tests/tst_mymodel.cpp:323-334). `EditWithCurrentValueKeepsRow` proves such
  an edit leaves the row equal, while `SetData` still appends its event.
- `dataChanged` is emitted without a role list. Qt reads an empty list as
  "all roles". So the event carries no aspect set.
- Headers can be renamed through `setHeaderData` (mymodel.cpp:234-251). They
  are not fixed.

## Model

| member | source | states |
|---|---|---|
| `Columns.ToInt` | mymodel.h:168-180 | Every code is at most 7, and only `Count` has code 7. Which field has which code below 7 is fixed by `Columns.DefaultHeaders` |
| `Columns.ColumnCountValue` | mymodel.h:181 | The table width is the code of `Count`, which is 7, and every field column's code is below it |
| `Columns.OfInt` | mymodel.cpp:85 | `static_cast<Column>` of an in-range integer is the enumerator with that code |
| `Columns.OfIntToInt` | mymodel.h:168-181 | The two casts are inverse on the enum |
| `Columns.InRangeIsField` | mymodel.cpp:105-107 | A column index below the width never names `Count`, so that switch branch is unreachable |
| `Columns.DefaultHeaders` | mymodel.cpp:18-27 | Exactly one header per column. Header i is the name of column i, and each field column's code is the position of its header, so PenColor=0 … Height=6 |
| `Rects.Name` | mymodel.cpp:93 | A colour's name is `#` followed by six hex digits |
| `Rects.NameRoundTrip` | mymodel.cpp:93 | Reading a colour's name back gives the same colour |
| `Rects.ParseNameExact` | mymodel.cpp:93 | Every string the reader accepts is the name of the colour it reads |
| `Rects.NameInjective` | mymodel.cpp:93 | Two colours have the same name exactly when they are equal |
| `Variants.Trim` | mymodel.cpp:158 | The result is the slice of the input after its leading white space, with no white space at either end, and only white space is cut off around it |
| `Variants.TrimIdempotent` | mymodel.cpp:158 | Trimming twice is trimming once |
| `Model.CellValue` | mymodel.cpp:88-104 | Under DisplayRole and EditRole the colour column yields text and every other column yields an int |
| `Model.Edited` | mymodel.cpp:150-192 | An edit fails only for an unparsable colour. On success it reads back as the converted value in the addressed column, and every other column reads as before |
| `Model.ClampRow` | mymodel.cpp:275-278 | The insert position lies in [0, size]: in-range rows are kept, negative rows become 0, rows past the end become size |
| `Model.Inserted` | mymodel.h:125-133 | After inserting k defaults at `at`: the length grows by k, rows before `at` are unchanged, rows `[at, at+k)` are defaults, and later rows shift by k |
| `Model.InsertedTimes` | mymodel.cpp:283-284 | Each pass of the insert loop grows the rows by one |
| `Model.InsertedTimesIsBlock` | mymodel.cpp:283-284 | Inserting one default k times at the same position gives one contiguous block of k defaults |
| `Model.InsertBeforeStartIsAtTop` | mymodel.cpp:275-276 | A negative position inserts the block at the top, exactly like position 0 |
| `Model.InsertPastEndAppends` | mymodel.cpp:277-278 | A position past the end appends the block, exactly like position size |
| `Model.EditWithCurrentValueKeepsRow` | mymodel.cpp:150-188 | Writing back the value just read from a cell leaves the row equal. For the colour column this holds when Qt turns the name back into the same text and parses it to the same colour |
| `Model.ColorEditWithName` | mymodel.cpp:155-164 | A colour edit whose text is a colour's name stores that colour and changes nothing else |
| `Model.MyModel.constructor` | mymodel.cpp:14-28 | A new model is empty, has no events, and has seven headers naming the columns in enum order |
| `Model.MyModel.RowCount` | mymodel.cpp:36-41 | The number of rows at the root, and 0 under a valid parent |
| `Model.MyModel.ColumnCount` | mymodel.cpp:49-54 | 7 at the root, and 0 under a valid parent |
| `Model.MyModel.Data` | mymodel.cpp:71-120 | The result is absent exactly when the index is invalid, the row or column is out of range, or the role is not answered for that column. Otherwise it is the field value under Display/Edit, or the colour swatch under Decoration on column 0 |
| `Model.MyModel.HeaderData` | mymodel.cpp:207-221 | Under DisplayRole only: a horizontal section gets its stored label, or absent out of range; a vertical section gets section + 1 |
| `Model.MyModel.Flags` | mymodel.cpp:298-304 | An invalid index gets no flags; a valid one gets the base flags plus editable and nothing else |
| `Model.MyModel.SetData` | mymodel.cpp:134-197 | Succeeds exactly for EditRole on an in-range cell whose value converts. Then only that field of that row changes and one single-cell `DataChanged` is emitted. Otherwise nothing changes and nothing is emitted |
| `Model.MyModel.SetHeaderData` | mymodel.cpp:234-251 | Succeeds exactly for EditRole, horizontal, in-range section. Then only that label is replaced and one `HeaderDataChanged(section, section)` is emitted. Otherwise nothing changes. The header count is preserved |
| `Model.MyModel.InsertRows` | mymodel.cpp:267-288 | Fails with no change when the parent is valid or count <= 0. Otherwise inserts count defaults at the clamped position, grows the row count by count, and emits begin(at, at+count-1) then end |
| `Model.MyModel.SlotAddData` | mymodel.cpp:314-326 | Appends the record as the new last row and grows the row count by one. Emits the insert bracket, then `DataChanged` over columns 0..6 of that row |
| `Model.MyModel.Test` | mymodel.cpp:334-339 | Appends a red solid rectangle and then a green dotted one. Each append emits its insert bracket, then `DataChanged` over columns 0..6 of its row |
| `Model.DisplayEqualsEdit` | mymodel.cpp:87-88 | Every cell gives the same value under DisplayRole and EditRole |
| `Model.FreshHeaders` | mymodel.h:98-110 | With the constructor's headers, horizontal section i reads as column i's name, and vertical section s reads as s + 1 |

`DefaultRect` (black, `SolidLine`, width 1, at 0,0, size 10 by 10) is a
constant. MyRect.h is not part of this model, so these values follow
tests/tst_myrect.cpp:60-70.

## Left out

- Saving to and loading from TSV are not modelled. The tests call
  `saveToTsv` / `loadFromTsv`, but neither is declared in mymodel.h nor
  defined in mymodel.cpp.
- `penStyleToString` is declared (mymodel.h:188) but never defined, and
  nothing calls it. It is not modelled.
- The delegate (mydelegate.cpp) and the main window (mainwindow.h,
  mainwindow.cpp) are UI code. They are not modelled.
- Qt's `QVariant::toString` and `QVariant::toInt`, and the colour parser
  `QColor(QString)` with `isValid()`, are library code. They are parameters
  (`Conversions`): the model calls them but does not define them.
- The 32x32 pixmap and icon of the decoration role are a `Swatch(colour)`
  value. No image is rendered.
- The base class flags of `QAbstractTableModel::flags` are a parameter of
  `Flags`.
- `QColor` is an RGB triple. Its alpha channel and other colour specs are
  not modelled, and `Name` assumes the lower-case `#rrggbb` form.
- `Variants.Trim` removes only ASCII white space. `QString::trimmed` also
  removes other Unicode spaces.
- C++ `int` is unbounded here. Overflow of `row + count - 1` in
  `insertRows` and of `section + 1` in `headerData` is not modelled.
- Qt's index bookkeeping (persistent indexes, the `QModelIndex` returned by
  `index()`) is not modelled. `SlotAddData`'s `index(row, c)` is the cell
  (row, c).
- The row is updated by replacing the element of the `seq` field, not
  through a C++ reference into the vector. Nothing else can see the vector,
  so no aliasing is lost.
