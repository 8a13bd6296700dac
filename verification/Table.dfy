/** Tables whose columns line up (internal/render/primitives.go). */
module Table {
  import opened Ansi

  const GAP := "  "

  datatype Column = Column(title: string, min: int, max: int, align: Alignment)

  function Max(a: int, b: int): int { if a >= b then a else b }

  lemma MaxIs(a: int, b: int)
    ensures Max(a, b) == if b > a then b else a
  {}

  function CellOf(row: seq<string>, i: nat): string { if i < |row| then row[i] else "" }

  /** The widest cell of column i, starting from a least width. */
  function Widest(w: RuneWidth, rows: seq<seq<string>>, i: nat, least: int): int {
    if rows == [] then least
    else
      var n := |rows| - 1;
      var before := Widest(w, rows[..n], i, least);
      if i < |rows[n]| then Max(before, Width(w, rows[n][i])) else before
  }

  /** Columns are as wide as their widest cell, between the minimum and the maximum. */
  function ColumnWidth(w: RuneWidth, col: Column, rows: seq<seq<string>>, i: nat): int {
    var widest := Widest(w, rows, i, Max(col.min, Width(w, col.title)));
    if col.max > 0 && widest > col.max then col.max else widest
  }

  function Join(cells: seq<string>): string {
    if cells == [] then [] else if |cells| == 1 then cells[0]
    else Join(cells[..|cells| - 1]) + GAP + cells[|cells| - 1]
  }

  function TrimRight(s: string): string {
    if s != [] && s[|s| - 1] == ' ' then TrimRight(s[..|s| - 1]) else s
  }

  /** The cells of a line, each padded and cut to its column. */
  ghost predicate Fitted(w: RuneWidth, cols: seq<Column>, rows: seq<seq<string>>, row: seq<string>,
                      cells: seq<string>) {
    && |cells| == |cols|
    && forall i :: 0 <= i < |cols| ==>
         var width := ColumnWidth(w, cols[i], rows, i);
         cells[i] == Padded(w, Truncated(w, CellOf(row, i), width), width, cols[i].align)
  }

  /** The cells of the header line: painted titles, each padded to its column but not cut. */
  ghost predicate Headed(w: RuneWidth, cols: seq<Column>, rows: seq<seq<string>>, paint: string -> string,
                         header: seq<string>) {
    && |header| == |cols|
    && forall i :: 0 <= i < |cols| ==>
         header[i] == Padded(w, paint(cols[i].title), ColumnWidth(w, cols[i], rows, i), cols[i].align)
  }

  lemma {:induction false} WidestBounds(w: RuneWidth, rows: seq<seq<string>>, i: nat, least: int)
    ensures Widest(w, rows, i, least) >= least
    ensures forall r :: 0 <= r < |rows| && i < |rows[r]| ==> Width(w, rows[r][i]) <= Widest(w, rows, i, least)
    ensures Widest(w, rows, i, least) == least
      || exists r :: 0 <= r < |rows| && i < |rows[r]| && Width(w, rows[r][i]) == Widest(w, rows, i, least)
  {
    if rows != [] {
      var n := |rows| - 1;
      WidestBounds(w, rows[..n], i, least);
      if i < |rows[n]| && Width(w, rows[n][i]) > Widest(w, rows[..n], i, least) {
        assert Width(w, rows[n][i]) == Widest(w, rows, i, least);
      }
    }
  }

  /** A column is at least as wide as its minimum and its title and as every cell, and exactly as wide as one of
      them, unless that exceeds the maximum, which is then its width. */
  lemma ColumnWidthIs(w: RuneWidth, col: Column, rows: seq<seq<string>>, i: nat)
    ensures var width := ColumnWidth(w, col, rows, i);
      && (col.max > 0 ==> width <= col.max)
      && (|| (col.max > 0 && width == col.max)
          || (&& width >= col.min && width >= Width(w, col.title)
              && (forall r :: 0 <= r < |rows| && i < |rows[r]| ==> width >= Width(w, rows[r][i]))
              && (|| width == col.min || width == Width(w, col.title)
                  || exists r :: 0 <= r < |rows| && i < |rows[r]| && width == Width(w, rows[r][i]))))
  {
    WidestBounds(w, rows, i, Max(col.min, Width(w, col.title)));
  }

  lemma WidestStep(w: RuneWidth, rows: seq<seq<string>>, r: nat, i: nat, least: int)
    requires r < |rows|
    ensures Widest(w, rows[..r + 1], i, least) ==
      if i < |rows[r]| then Max(Widest(w, rows[..r], i, least), Width(w, rows[r][i]))
      else Widest(w, rows[..r], i, least)
  {
    hide Width;
    assert rows[..r + 1][..r] == rows[..r];
  }

  lemma WidestNone(w: RuneWidth, i: nat, least: int)
    ensures Widest(w, [], i, least) == least
  {}

  class Table {
    const w: RuneWidth
    const cols: seq<Column>
    var rows: seq<seq<string>>

    constructor (w: RuneWidth, cols: seq<Column>)
      ensures this.w == w && this.cols == cols && rows == []
    {
      this.w, this.cols, rows := w, cols, [];
    }

    /** Row. */
    method Row(cells: seq<string>)
      modifies this
      ensures rows == old(rows) + [cells]
    {
      rows := rows + [cells];
    }

    /** The width of column i once the first r rows have been looked at. */
    function After(r: nat, i: nat): int
      requires r <= |rows| && i < |cols|
      reads this
    {
      Widest(w, rows[..r], i, Max(cols[i].min, Width(w, cols[i].title)))
    }

    /** The width pass of Render, over an array of widths. */
    method Widths() returns (widths: array<int>)
      ensures fresh(widths) && widths.Length == |cols|
      ensures forall i :: 0 <= i < |cols| ==> widths[i] == ColumnWidth(w, cols[i], rows, i)
    {
      hide Widest, Width;
      var n := |cols|;
      widths := new int[n];
      for i := 0 to n
        invariant forall j :: 0 <= j < i ==> widths[j] == After(0, j)
      {
        WidestNone(w, i, Max(cols[i].min, Width(w, cols[i].title)));
        var title := VisibleWidth(w, cols[i].title);
        widths[i] := Max(cols[i].min, title);
        assert rows[..0] == [];
      }
      for r := 0 to |rows|
        invariant forall j :: 0 <= j < n ==> widths[j] == After(r, j)
      {
        WidenBy(widths, r);
      }
      assert rows[..|rows|] == rows;
      for i := 0 to n
        invariant forall j :: 0 <= j < i ==> widths[j] == ColumnWidth(w, cols[j], rows, j)
        invariant forall j :: i <= j < n ==> widths[j] == After(|rows|, j)
      {
        if cols[i].max > 0 && widths[i] > cols[i].max {
          widths[i] := cols[i].max;
        }
      }
    }

    /** One row of the width pass. */
    method WidenBy(widths: array<int>, r: nat)
      requires widths.Length == |cols| && r < |rows| && forall j :: 0 <= j < |cols| ==> widths[j] == After(r, j)
      modifies widths
      ensures forall j :: 0 <= j < |cols| ==> widths[j] == After(r + 1, j)
    {
      hide Widest, Width, Max;
      var row := rows[r];
      forall j | 0 <= j < |cols| { WidestStep(w, rows, r, j, Max(cols[j].min, Width(w, cols[j].title))); }
      var i := 0;
      while i < |cols| && i < |row|
        invariant 0 <= i <= |cols| && (i <= |row| || i == 0)
        invariant forall j :: 0 <= j < i ==> widths[j] == After(r + 1, j)
        invariant forall j :: i <= j < |cols| ==> widths[j] == After(r, j)
      {
        var vis := VisibleWidth(w, row[i]);
        MaxIs(widths[i], vis);
        if vis > widths[i] {
          widths[i] := vis;
        }
        i := i + 1;
      }
    }

    /** Render. The header takes the painted titles, padded but not cut; every row becomes the line
        of its cells, each cut and padded to its column. */
    method Render(paint: string -> string)
      returns (out: seq<string>, ghost header: seq<string>, ghost grid: seq<seq<string>>)
      ensures |out| == |rows| + 1 && |grid| == |rows|
      ensures Headed(w, cols, rows, paint, header) && out[0] == TrimRight(Join(header))
      ensures forall r :: 0 <= r < |rows| ==>
        Fitted(w, cols, rows, rows[r], grid[r]) && out[r + 1] == TrimRight(Join(grid[r]))
    {
      hide Fitted, Headed, Join, TrimRight, ColumnWidth;
      var widths := Widths();
      var head := Header(paint, widths);
      header, out, grid := head, [TrimRight(Join(head))], [];
      for r := 0 to |rows|
        invariant forall i :: 0 <= i < |cols| ==> widths[i] == ColumnWidth(w, cols[i], rows, i)
        invariant |out| == r + 1 && |grid| == r && out[0] == TrimRight(Join(header))
        invariant forall q :: 0 <= q < r ==>
          Fitted(w, cols, rows, rows[q], grid[q]) && out[q + 1] == TrimRight(Join(grid[q]))
      {
        var cells := Cells(rows[r], widths);
        out, grid := out + [TrimRight(Join(cells))], grid + [cells];
      }
    }

    method Header(paint: string -> string, widths: array<int>) returns (header: seq<string>)
      requires widths.Length == |cols| && forall i :: 0 <= i < |cols| ==> widths[i] == ColumnWidth(w, cols[i], rows, i)
      ensures Headed(w, cols, rows, paint, header)
    {
      hide ColumnWidth, Padded;
      header := [];
      for i := 0 to |cols|
        invariant |header| == i
        invariant forall j :: 0 <= j < i ==>
          header[j] == Padded(w, paint(cols[j].title), ColumnWidth(w, cols[j], rows, j), cols[j].align)
      {
        var cell := PadANSI(w, paint(cols[i].title), widths[i], cols[i].align);
        header := header + [cell];
      }
    }

    method Cells(row: seq<string>, widths: array<int>) returns (cells: seq<string>)
      requires widths.Length == |cols| && forall i :: 0 <= i < |cols| ==> widths[i] == ColumnWidth(w, cols[i], rows, i)
      ensures Fitted(w, cols, rows, row, cells)
    {
      cells := [];
      for i := 0 to |cols|
        invariant |cells| == i
        invariant forall j :: 0 <= j < i ==>
          var width := ColumnWidth(w, cols[j], rows, j);
          cells[j] == Padded(w, Truncated(w, CellOf(row, j), width), width, cols[j].align)
      {
        var v := "";
        if i < |row| {
          v := row[i];
        }
        v := TruncateANSI(w, v, widths[i]);
        v := PadANSI(w, v, widths[i], cols[i].align);
        cells := cells + [v];
      }
    }
  }

  lemma CellIsExact(w: RuneWidth, cols: seq<Column>, rows: seq<seq<string>>, row: seq<string>, cells: seq<string>,
                    i: nat)
    requires Fitted(w, cols, rows, row, cells) && i < |cols|
    requires !Missed(w, CellOf(row, i)) && ScanFrom(Text, CellOf(row, i)).Text?
    ensures |cells| == |cols|
    ensures Width(w, cells[i]) == ColumnWidth(w, cols[i], rows, i) && ScanFrom(Text, cells[i]).Text?
  {
    WidestBounds(w, rows, i, Max(cols[i].min, Width(w, cols[i].title)));
    CellWidth(w, CellOf(row, i), ColumnWidth(w, cols[i], rows, i), cols[i].align);
  }

  /** Where column i starts in every row. */
  function Offset(w: RuneWidth, cols: seq<Column>, rows: seq<seq<string>>, i: nat): int
    requires i <= |cols|
  {
    if i == 0 then 0 else Offset(w, cols, rows, i - 1) + ColumnWidth(w, cols[i - 1], rows, i - 1) + 2
  }

  /** The text of a line before column i, with two blanks between columns. */
  function Before(cells: seq<string>, i: nat): string
    requires i <= |cells|
  {
    if i == 0 then [] else Join(cells[..i]) + "  "
  }

  lemma JoinIs(cells: seq<string>, i: nat)
    requires i < |cells|
    ensures Join(cells[..i + 1]) == Before(cells, i) + cells[i]
  {
    if i == 0 { assert cells[..1] == [cells[0]]; } else { assert cells[..i + 1][..i] == cells[..i]; }
  }

  /** The rows line up: in every row the text before column i is as wide as in every other row,
      and cell i fills its column exactly. */
  lemma {:induction false} ColumnsLineUp(w: RuneWidth, cols: seq<Column>, rows: seq<seq<string>>, row: seq<string>,
                                         cells: seq<string>, i: nat)
    requires Fitted(w, cols, rows, row, cells) && i < |cols|
    requires forall j :: 0 <= j <= i ==> !Missed(w, CellOf(row, j)) && ScanFrom(Text, CellOf(row, j)).Text?
    ensures Join(cells[..i + 1]) == Before(cells, i) + cells[i]
    ensures Width(w, Before(cells, i)) == Offset(w, cols, rows, i)
    ensures Width(w, cells[i]) == ColumnWidth(w, cols[i], rows, i)
    ensures ScanFrom(Text, Before(cells, i)).Text? && ScanFrom(Text, cells[i]).Text?
  {
    hide Fitted, Join, ColumnWidth, ScanFrom, StripFrom, WidthOf;
    CellIsExact(w, cols, rows, row, cells, i);
    JoinIs(cells, i);
    if i > 0 {
      ColumnsLineUp(w, cols, rows, row, cells, i - 1);
      JoinStep(w, Before(cells, i - 1), cells[i - 1], Join(cells[..i]));
    } else {
      EmptyText(w, Text);
    }
  }

  lemma JoinStep(w: RuneWidth, before: string, cell: string, line: string)
    requires line == before + cell && ScanFrom(Text, before).Text? && ScanFrom(Text, cell).Text?
    ensures ScanFrom(Text, line + GAP).Text?
    ensures Width(w, line + GAP) == Width(w, before) + Width(w, cell) + |GAP|
  {
    hide StripFrom, ScanFrom, WidthOf;
    GapIsTwo(w);
    ScanAppend(Text, line, GAP);
    ScanAppend(Text, before, cell);
    WidthAppend(w, Stripped(line), GAP);
    WidthAppend(w, Stripped(before), Stripped(cell));
  }

  lemma GapIsTwo(w: RuneWidth)
    ensures WidthOf(w, GAP) == |GAP| && ScanFrom(Text, GAP) == Text && Stripped(GAP) == GAP
  {
    PlainIsText(GAP);
    assert GAP[..1] == " ";
  }

  // ---- the header ----

  /** A header cell has its column's width exactly when its painted title is not wider and no space goes
      behind an escape that the paint left open. */
  lemma HeaderCell(w: RuneWidth, cols: seq<Column>, rows: seq<seq<string>>, paint: string -> string,
                   header: seq<string>, i: nat)
    requires Headed(w, cols, rows, paint, header) && i < |cols|
    ensures var painted, width := paint(cols[i].title), ColumnWidth(w, cols[i], rows, i);
      Width(w, header[i]) == width <==>
        || Width(w, painted) == width
        || (Width(w, painted) < width && (cols[i].align == AlignRight || ScanFrom(Text, painted).Text?))
  {
    hide ColumnWidth, Padded, ScanFrom, Width;
    PadWidth(w, paint(cols[i].title), ColumnWidth(w, cols[i], rows, i), cols[i].align);
    PadKeepsWide(w, paint(cols[i].title), ColumnWidth(w, cols[i], rows, i), cols[i].align);
  }

  lemma PadKeepsWide(w: RuneWidth, s: string, width: int, align: Alignment)
    ensures Width(w, s) >= width ==> Padded(w, s, width, align) == s
  {}

  /** The paint adds no cells and closes the escapes it opens. */
  predicate PaintsOver(w: RuneWidth, paint: string -> string, title: string) {
    Width(w, paint(title)) == Width(w, title) && ScanFrom(Text, paint(title)).Text?
  }

  /** The title is no wider than the column may be. */
  predicate TitleFits(w: RuneWidth, col: Column) { col.max <= 0 || Width(w, col.title) <= col.max }

  lemma TitleAndColumn(w: RuneWidth, col: Column, rows: seq<seq<string>>, i: nat)
    ensures Width(w, col.title) <= ColumnWidth(w, col, rows, i) <==> TitleFits(w, col)
  {
    WidestBounds(w, rows, i, Max(col.min, Width(w, col.title)));
  }

  lemma HeaderCellWidth(w: RuneWidth, cols: seq<Column>, rows: seq<seq<string>>, paint: string -> string,
                        header: seq<string>, i: nat)
    requires Headed(w, cols, rows, paint, header) && i < |cols| && PaintsOver(w, paint, cols[i].title)
    ensures |header| == |cols|
    ensures Width(w, header[i]) >= ColumnWidth(w, cols[i], rows, i) && ScanFrom(Text, header[i]).Text?
    ensures Width(w, header[i]) == ColumnWidth(w, cols[i], rows, i) <==> TitleFits(w, cols[i])
  {
    hide ColumnWidth, Padded, ScanFrom, Width, TitleFits;
    var painted, width := paint(cols[i].title), ColumnWidth(w, cols[i], rows, i);
    TitleAndColumn(w, cols[i], rows, i);
    PadWidth(w, painted, width, cols[i].align);
    PadKeepsWide(w, painted, width, cols[i].align);
    PadClosed(w, painted, width, cols[i].align);
  }

  /** The header is not cut. Under a paint that adds no cells its cell i has the width of the column exactly
      when the title fits, and the column starts where it starts in the rows exactly when all titles
      before it fit; otherwise it starts further right. */
  lemma {:induction false} HeaderLinesUp(w: RuneWidth, cols: seq<Column>, rows: seq<seq<string>>,
                                         paint: string -> string, header: seq<string>, i: nat)
    requires Headed(w, cols, rows, paint, header) && i < |cols|
    requires forall j :: 0 <= j <= i ==> PaintsOver(w, paint, cols[j].title)
    ensures Join(header[..i + 1]) == Before(header, i) + header[i]
    ensures Width(w, header[i]) == ColumnWidth(w, cols[i], rows, i) <==> TitleFits(w, cols[i])
    ensures Width(w, Before(header, i)) >= Offset(w, cols, rows, i)
    ensures Width(w, Before(header, i)) == Offset(w, cols, rows, i) <==> forall j :: 0 <= j < i ==>
      TitleFits(w, cols[j])
    ensures ScanFrom(Text, Before(header, i)).Text?
  {
    hide Headed, Join, ColumnWidth, ScanFrom, StripFrom, WidthOf, TitleFits, PaintsOver;
    HeaderCellWidth(w, cols, rows, paint, header, i);
    JoinIs(header, i);
    if i > 0 {
      HeaderLinesUp(w, cols, rows, paint, header, i - 1);
      HeaderCellWidth(w, cols, rows, paint, header, i - 1);
      JoinStep(w, Before(header, i - 1), header[i - 1], Join(header[..i]));
    } else {
      EmptyText(w, Text);
    }
  }

  /** Lines lose only trailing spaces, so a line starts with the line it was trimmed from. */
  lemma {:induction false} TrimIsPrefix(s: string)
    ensures TrimRight(s) <= s && AllBlank(s[|TrimRight(s)|..])
    ensures TrimRight(s) != [] ==> TrimRight(s)[|TrimRight(s)| - 1] != ' '
  {
    if s != [] && s[|s| - 1] == ' ' {
      var init := s[..|s| - 1];
      TrimIsPrefix(init);
      assert TrimRight(s) == TrimRight(init);
      assert s[|TrimRight(init)|..] == init[|TrimRight(init)|..] + [' '];
    }
  }

  /** Nothing is cut in a column without a maximum. */
  lemma NothingCut(w: RuneWidth, cols: seq<Column>, rows: seq<seq<string>>, r: nat, cells: seq<string>, i: nat)
    requires r < |rows| && Fitted(w, cols, rows, rows[r], cells) && i < |cols| && i < |rows[r]| && cols[i].max <= 0
    ensures Truncated(w, rows[r][i], ColumnWidth(w, cols[i], rows, i)) == rows[r][i]
  {
    WidestBounds(w, rows, i, Max(cols[i].min, Width(w, cols[i].title)));
  }
}
