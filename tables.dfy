/**
 * The report tables: a styled header row, then data rows added one at a time with alternating
 * white and cream shading, an optional bar-chart image in one column, and empty text for a
 * missing value. Fonts and cell margins are not modelled; a picture is modelled by the chart
 * drawn into its image file.
 */
module Tables {
  import opened Wrappers
  import opened Charts

  const WHITE := "FFFFFF"
  const CREAM := "FDF6E3"
  /** The default header colour (the brand purple without its `#`). */
  const HEADER_PURPLE := "461E96"

  datatype Align = Left | Center

  /**
   * What a report hands a table cell: a literal string, a number written to one decimal
   * place after a sign prefix (`f"{prefix}{x:.1f}"`, the formatting itself not modelled),
   * or Python's `None`.
   */
  datatype Value = Str(s: string) | OneDecimal(prefix: string, x: real) | Null

  datatype Content = Text(value: Value) | Picture(image: BarChart)

  datatype Cell = Cell(content: Content, shading: Option<string>, align: Option<Align>)

  /** A cell as `add_row` creates it: empty text, no shading, default alignment. */
  const BLANK: Cell := Cell(Text(Str("")), None, None)

  /** `'FFFFFF' if row_index % 2 == 0 else 'FDF6E3'`. */
  function RowShade(rowIndex: int): (s: string)
    ensures s == WHITE <==> rowIndex % 2 == 0
    ensures s == CREAM <==> rowIndex % 2 == 1
  {
    if rowIndex % 2 == 0 then WHITE else CREAM
  }

  /**
   * Python truthiness of the optional image path. The reports always pass a fresh temporary
   * file's (non-empty) path, so an image is given exactly when a chart was drawn.
   */
  predicate HasImage(image: Option<BarChart>)
  {
    image.Some?
  }

  /** The cell `_add_table_row` writes at column `i` of a data row. */
  function DataCell(values: seq<Value>, i: int, rowIndex: int, alignments: seq<Align>,
                    image: Option<BarChart>, barCol: Option<int>): Cell
    requires 0 <= i < |values|
  {
    if HasImage(image) && barCol == Some(i) then Cell(Picture(image.value), Some(RowShade(rowIndex)), Some(Center))
    else
      Cell(Text(if values[i].Null? then Str("") else values[i]), Some(RowShade(rowIndex)),
           if i < |alignments| then Some(alignments[i]) else None)
  }

  /**
   * The row `_add_table_row` appends to a table of `columns` columns: every column that has a
   * value is shaded by the row's parity; the bar column, when an image is given, holds that image
   * and nothing else; a `None` value becomes empty text; columns past the values stay blank.
   */
  function DataRow(columns: nat, values: seq<Value>, rowIndex: int, alignments: seq<Align>,
                   image: Option<BarChart>, barCol: Option<int>): (row: seq<Cell>)
    requires |values| <= columns
    ensures |row| == columns
    ensures forall i :: 0 <= i < |values| ==> row[i].shading == Some(RowShade(rowIndex))
    ensures forall i :: |values| <= i < columns ==> row[i] == BLANK
    ensures forall i :: 0 <= i < |values| ==>
      (row[i].content.Picture? <==> HasImage(image) && barCol == Some(i))
    ensures forall i :: 0 <= i < |values| && row[i].content.Picture? ==>
      image == Some(row[i].content.image) && row[i].align == Some(Center)
    ensures forall i :: 0 <= i < |values| && !row[i].content.Picture? ==>
      row[i].content.value == (if values[i].Null? then Str("") else values[i]) &&
      row[i].align == (if i < |alignments| then Some(alignments[i]) else None)
  {
    seq(columns, i requires 0 <= i < columns =>
      if i < |values| then DataCell(values, i, rowIndex, alignments, image, barCol) else BLANK)
  }

  /** `_create_styled_table`'s header row: the header texts, centred, on the header colour. */
  function HeaderRow(headers: seq<string>, colour: string): (row: seq<Cell>)
    ensures |row| == |headers|
    ensures forall i :: 0 <= i < |headers| ==> row[i] == Cell(Text(Str(headers[i])), Some(colour), Some(Center))
  {
    seq(|headers|, i requires 0 <= i < |headers| => Cell(Text(Str(headers[i])), Some(colour), Some(Center)))
  }

  /** Rows at consecutive indices never share a shade, and rows two apart always do. */
  lemma ShadingAlternates(rowIndex: int)
    ensures RowShade(rowIndex) != RowShade(rowIndex + 1)
    ensures RowShade(rowIndex) == RowShade(rowIndex + 2)
  {
  }

  /** A document table: its column count and its rows, the header row first. */
  class Table {
    var columns: nat
    var rows: seq<seq<Cell>>

    predicate Valid()
      reads this
    {
      |rows| > 0 && forall r :: 0 <= r < |rows| ==> |rows[r]| == columns
    }

    /** `_create_styled_table(doc, headers, colour)`. */
    constructor (headers: seq<string>, colour: string)
      ensures Valid()
      ensures columns == |headers| && rows == [HeaderRow(headers, colour)]
    {
      columns := |headers|;
      rows := [HeaderRow(headers, colour)];
    }

    /**
     * `_add_table_row`: appends one blank row, then fills and shades its first `|values|` cells
     * in order. A row with more values than columns is refused (python-docx raises an IndexError).
     */
    method AddTableRow(values: seq<Value>, rowIndex: int, alignments: seq<Align>,
                       image: Option<BarChart>, barCol: Option<int>)
      requires Valid() && |values| <= columns
      modifies this
      ensures Valid() && columns == old(columns)
      ensures rows == old(rows) + [DataRow(columns, values, rowIndex, alignments, image, barCol)]
    {
      var row := seq(columns, _ => BLANK);
      var shade := RowShade(rowIndex);
      for i := 0 to |values|
        invariant |row| == columns
        invariant forall j :: 0 <= j < i ==> row[j] == DataCell(values, j, rowIndex, alignments, image, barCol)
        invariant forall j :: i <= j < columns ==> row[j] == BLANK
      {
        var cell;
        if HasImage(image) && barCol == Some(i) {
          cell := Cell(Picture(image.value), Some(shade), Some(Center));
        } else {
          var text := if values[i].Null? then Str("") else values[i];
          var align := if i < |alignments| then Some(alignments[i]) else None;
          cell := Cell(Text(text), Some(shade), align);
        }
        row := row[i := cell];
      }
      assert row == DataRow(columns, values, rowIndex, alignments, image, barCol);
      rows := rows + [row];
    }
  }
}
