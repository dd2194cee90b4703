/**
 * What the command stream of a successful draw looks like, stated against
 * reference definitions that do not follow the drawing loop: how many
 * commands of each kind it holds, which chunks it prints in which order, and
 * where cursor moves and colour re-assertions stand.
 */
module TextProperties {
  import opened Wrappers
  import opened Terminal
  import opened Text

  /** The chunks of all rows, row after row. */
  function Flatten(rows: seq<seq<Chunk>>): seq<Chunk> {
    if rows == [] then [] else rows[0] + Flatten(rows[1..])
  }

  /** How many chunks carry a style other than the default. */
  function StyledCount(chunks: seq<Chunk>): nat {
    if chunks == [] then 0 else (if IsStyled(chunks[0]) then 1 else 0) + StyledCount(chunks[1..])
  }

  datatype Kind = Move | Down | Print | Recolor

  function KindOf(c: Command): Kind {
    match c
    case MoveToColumn(_) => Move
    case MoveDown(_) => Down
    case PrintStyledContent(_, _) => Print
    case SetColors(_) => Recolor
  }

  /** How many commands of the given kind a stream holds. */
  function Count(cmds: seq<Command>, k: Kind): nat {
    if cmds == [] then 0 else (if KindOf(cmds[0]) == k then 1 else 0) + Count(cmds[1..], k)
  }

  /** The chunks a stream prints, in the order it prints them. */
  function Printed(cmds: seq<Command>): seq<Chunk> {
    if cmds == [] then []
    else (match cmds[0] case PrintStyledContent(t, s) => [Chunk(t, s)] case _ => []) + Printed(cmds[1..])
  }

  /**
   * The placement rules of a draw stream starting at column `start` with
   * default colours `colors`: every column move goes to `start`; every move
   * down is by one row and comes right after a column move; colours are set
   * only right after the print of a styled chunk, and only to the defaults;
   * and every print of a styled chunk is followed at once by that re-assertion.
   */
  ghost predicate Placed(cmds: seq<Command>, start: u16, colors: Colors) {
    && (forall i :: 0 <= i < |cmds| && cmds[i].MoveToColumn? ==> cmds[i].column == start)
    && (forall i :: 0 <= i < |cmds| && cmds[i].MoveDown? ==>
          cmds[i].rows == 1 && 0 < i && cmds[i - 1] == MoveToColumn(start))
    && (forall i :: 0 <= i < |cmds| && cmds[i].SetColors? ==>
          cmds[i].colors == colors && 0 < i && cmds[i - 1].PrintStyledContent? && cmds[i - 1].style != DefaultStyle)
    && (forall i :: 0 <= i < |cmds| && cmds[i].PrintStyledContent? && cmds[i].style != DefaultStyle ==>
          i + 1 < |cmds| && cmds[i + 1].SetColors?)
  }

  // ---------------------------------------------------------------------------
  // Streams split at a concatenation

  lemma {:induction false} CountAppend(a: seq<Command>, b: seq<Command>, k: Kind)
    ensures Count(a + b, k) == Count(a, k) + Count(b, k)
  {
    if a != [] {
      assert (a + b)[1..] == a[1..] + b;
      CountAppend(a[1..], b, k);
    } else {
      assert a + b == b;
    }
  }

  lemma {:induction false} PrintedAppend(a: seq<Command>, b: seq<Command>)
    ensures Printed(a + b) == Printed(a) + Printed(b)
  {
    if a != [] {
      assert (a + b)[1..] == a[1..] + b;
      PrintedAppend(a[1..], b);
    } else {
      assert a + b == b;
    }
  }

  lemma CountSingle(c: Command, k: Kind)
    ensures Count([c], k) == if KindOf(c) == k then 1 else 0
  {
    assert [c][1..] == [];
  }

  lemma CountPair(c: Command, d: Command, k: Kind)
    ensures Count([c, d], k) == Count([c], k) + Count([d], k)
  {
    CountAppend([c], [d], k);
    assert [c] + [d] == [c, d];
  }

  /** Every command is of exactly one of the four kinds. */
  lemma {:induction false} LengthByKinds(cmds: seq<Command>)
    ensures |cmds| == Count(cmds, Move) + Count(cmds, Down) + Count(cmds, Print) + Count(cmds, Recolor)
  {
    if cmds != [] {
      LengthByKinds(cmds[1..]);
    }
  }

  lemma {:induction false} FlattenSnoc(rows: seq<seq<Chunk>>, row: seq<Chunk>)
    ensures Flatten(rows + [row]) == Flatten(rows) + row
  {
    if rows == [] {
      assert [row][1..] == [];
    } else {
      assert (rows + [row])[1..] == rows[1..] + [row];
      FlattenSnoc(rows[1..], row);
    }
  }

  lemma {:induction false} StyledCountAppend(a: seq<Chunk>, b: seq<Chunk>)
    ensures StyledCount(a + b) == StyledCount(a) + StyledCount(b)
  {
    if a != [] {
      assert (a + b)[1..] == a[1..] + b;
      StyledCountAppend(a[1..], b);
    } else {
      assert a + b == b;
    }
  }

  lemma {:induction false} PlacedAppend(a: seq<Command>, b: seq<Command>, start: u16, colors: Colors)
    requires Placed(a, start, colors) && Placed(b, start, colors)
    requires b != [] ==> !b[0].MoveDown? && !b[0].SetColors?
    ensures Placed(a + b, start, colors)
  {
    var c := a + b;
    forall i | 0 <= i < |c| && c[i].MoveDown?
      ensures c[i].rows == 1 && 0 < i && c[i - 1] == MoveToColumn(start)
    {
      if i >= |a| { assert c[i] == b[i - |a|]; }
    }
    forall i | 0 <= i < |c| && c[i].SetColors?
      ensures c[i].colors == colors && 0 < i && c[i - 1].PrintStyledContent? && c[i - 1].style != DefaultStyle
    {
      if i >= |a| { assert c[i] == b[i - |a|]; }
    }
    forall i | 0 <= i < |c| && c[i].PrintStyledContent? && c[i].style != DefaultStyle
      ensures i + 1 < |c| && c[i + 1].SetColors?
    {
      if i < |a| { assert c[i] == a[i]; } else { assert c[i] == b[i - |a|]; }
    }
  }

  // ---------------------------------------------------------------------------
  // The commands of one row's chunks

  /** One chunk: a print, and a colour re-assertion when styled. */
  lemma ChunkShape(chunk: Chunk, colors: Colors, k: Kind)
    ensures Count(ChunkCommands(chunk, colors), k)
      == (if k == Print then 1 else 0) + (if k == Recolor && IsStyled(chunk) then 1 else 0)
    ensures Printed(ChunkCommands(chunk, colors)) == [chunk]
  {
    var s := PrintStyledContent(chunk.text, chunk.style);
    var rest := ChunkCommands(chunk, colors)[1..];
    assert ChunkCommands(chunk, colors) == [s] + rest;
    CountAppend([s], rest, k);
    CountSingle(s, k);
    PrintedAppend([s], rest);
    assert Printed([s]) == [chunk] by { assert [s][1..] == []; }
    if IsStyled(chunk) {
      var r := SetColors(Colors(colors.background, colors.foreground));
      assert rest == [r];
      CountSingle(r, k);
      assert Printed(rest) == [] by { assert rest[1..] == []; }
    } else {
      assert rest == [];
    }
  }

  lemma {:induction false} ChunksShape(chunks: seq<Chunk>, colors: Colors, k: Kind)
    ensures Count(ChunksCommands(chunks, colors), k)
      == (if k == Print then |chunks| else 0) + (if k == Recolor then StyledCount(chunks) else 0)
    ensures Printed(ChunksCommands(chunks, colors)) == chunks
    decreases |chunks|
  {
    if chunks != [] {
      var init, last := chunks[..|chunks| - 1], chunks[|chunks| - 1];
      var a, b := ChunksCommands(init, colors), ChunkCommands(last, colors);
      ChunksShape(init, colors, k);
      ChunkShape(last, colors, k);
      assert chunks == init + [last];
      StyledCountAppend(init, [last]);
      assert StyledCount([last]) == if IsStyled(last) then 1 else 0 by {
        assert [last][1..] == [];
      }
      PrintedAppend(a, b);
      CountAppend(a, b, k);
    }
  }

  lemma {:induction false} ChunksPlaced(chunks: seq<Chunk>, start: u16, colors: Colors)
    ensures Placed(ChunksCommands(chunks, colors), start, colors)
    ensures ChunksCommands(chunks, colors) != [] ==> ChunksCommands(chunks, colors)[0].PrintStyledContent?
    decreases |chunks|
  {
    if chunks != [] {
      var init, last := chunks[..|chunks| - 1], chunks[|chunks| - 1];
      ChunksPlaced(init, start, colors);
      PlacedAppend(ChunksCommands(init, colors), ChunkCommands(last, colors), start, colors);
    }
  }

  // ---------------------------------------------------------------------------
  // The commands of all rows

  /** A row's head: one column move, and one move down unless it is the first row. */
  lemma RowHeadShape(index: nat, start: u16, k: Kind)
    ensures Count(RowHead(index, start), k) == (if k == Move then 1 else 0) + (if k == Down && index > 0 then 1 else 0)
    ensures Printed(RowHead(index, start)) == []
  {
    var m := MoveToColumn(start);
    CountSingle(m, k);
    assert Printed([m]) == [] by { assert [m][1..] == []; }
    if index > 0 {
      CountPair(m, MoveDown(1), k);
      CountSingle(MoveDown(1), k);
      assert RowHead(index, start) == [m, MoveDown(1)];
      PrintedAppend([m], [MoveDown(1)]);
      assert Printed([MoveDown(1)]) == [] by { assert [MoveDown(1)][1..] == []; }
      assert [m] + [MoveDown(1)] == [m, MoveDown(1)];
    } else {
      assert RowHead(index, start) == [m];
    }
  }

  lemma RowCount(row: seq<Chunk>, index: nat, start: u16, colors: Colors, k: Kind)
    ensures Count(RowCommands(row, index, start, colors), k)
      == (if k == Move then 1 else 0) + (if k == Down && index > 0 then 1 else 0)
       + (if k == Print then |row| else 0) + (if k == Recolor then StyledCount(row) else 0)
  {
    RowHeadShape(index, start, k);
    ChunksShape(row, colors, k);
    CountAppend(RowHead(index, start), ChunksCommands(row, colors), k);
  }

  lemma RowPrinted(row: seq<Chunk>, index: nat, start: u16, colors: Colors)
    ensures Printed(RowCommands(row, index, start, colors)) == row
  {
    RowHeadShape(index, start, Print);
    ChunksShape(row, colors, Print);
    PrintedAppend(RowHead(index, start), ChunksCommands(row, colors));
  }

  lemma {:induction false} RowsCount(rows: seq<seq<Chunk>>, start: u16, colors: Colors, k: Kind)
    ensures Count(RowsCommands(rows, start, colors), k)
      == (if k == Move then |rows| else 0)
       + (if k == Down && rows != [] then |rows| - 1 else 0)
       + (if k == Print then |Flatten(rows)| else 0)
       + (if k == Recolor then StyledCount(Flatten(rows)) else 0)
    decreases |rows|
  {
    if rows != [] {
      var n := |rows|;
      var init, last := rows[..n - 1], rows[n - 1];
      RowsCount(init, start, colors, k);
      RowCount(last, n - 1, start, colors, k);
      assert rows == init + [last];
      FlattenSnoc(init, last);
      StyledCountAppend(Flatten(init), last);
      CountAppend(RowsCommands(init, start, colors), RowCommands(last, n - 1, start, colors), k);
    }
  }

  lemma {:induction false} RowsPrinted(rows: seq<seq<Chunk>>, start: u16, colors: Colors)
    ensures Printed(RowsCommands(rows, start, colors)) == Flatten(rows)
    decreases |rows|
  {
    if rows != [] {
      var n := |rows|;
      var init, last := rows[..n - 1], rows[n - 1];
      RowsPrinted(init, start, colors);
      RowPrinted(last, n - 1, start, colors);
      assert rows == init + [last];
      FlattenSnoc(init, last);
      PrintedAppend(RowsCommands(init, start, colors), RowCommands(last, n - 1, start, colors));
    }
  }

  lemma RowHeadPlaced(index: nat, start: u16, colors: Colors)
    ensures Placed(RowHead(index, start), start, colors)
  {
  }

  lemma RowPlaced(row: seq<Chunk>, index: nat, start: u16, colors: Colors)
    ensures Placed(RowCommands(row, index, start, colors), start, colors)
    ensures RowCommands(row, index, start, colors)[0] == MoveToColumn(start)
  {
    ChunksPlaced(row, start, colors);
    RowHeadPlaced(index, start, colors);
    PlacedAppend(RowHead(index, start), ChunksCommands(row, colors), start, colors);
  }

  lemma {:induction false} RowsPlaced(rows: seq<seq<Chunk>>, start: u16, colors: Colors)
    ensures Placed(RowsCommands(rows, start, colors), start, colors)
    ensures RowsCommands(rows, start, colors) != [] ==> RowsCommands(rows, start, colors)[0] == MoveToColumn(start)
    decreases |rows|
  {
    if rows != [] {
      var n := |rows|;
      var a, b := RowsCommands(rows[..n - 1], start, colors), RowCommands(rows[n - 1], n - 1, start, colors);
      RowsPlaced(rows[..n - 1], start, colors);
      RowPlaced(rows[n - 1], n - 1, start, colors);
      PlacedAppend(a, b, start, colors);
      assert (a + b)[0] == if a == [] then b[0] else a[0];
    }
  }

  // ---------------------------------------------------------------------------
  // A whole draw

  /**
   * A draw queues one column move up front and one per row, one move down per
   * row after the first, one print per chunk and one colour re-assertion per
   * styled chunk, and nothing else.
   */
  lemma DrawCommandCount(rows: seq<seq<Chunk>>, start: u16, colors: Colors)
    ensures var cmds := DrawCommands(rows, start, colors);
      && Count(cmds, Move) == 1 + |rows|
      && Count(cmds, Down) == (if rows == [] then 0 else |rows| - 1)
      && Count(cmds, Print) == |Flatten(rows)|
      && Count(cmds, Recolor) == StyledCount(Flatten(rows))
      && |cmds| == 1 + |rows| + (if rows == [] then 0 else |rows| - 1) + |Flatten(rows)| + StyledCount(Flatten(rows))
  {
    var cmds := DrawCommands(rows, start, colors);
    forall k: Kind ensures Count(cmds, k) == Count([MoveToColumn(start)], k) + Count(RowsCommands(rows, start, colors), k)
      && Count([MoveToColumn(start)], k) == if k == Move then 1 else 0
    {
      RowsCount(rows, start, colors, k);
      CountAppend([MoveToColumn(start)], RowsCommands(rows, start, colors), k);
      CountSingle(MoveToColumn(start), k);
    }
    RowsCount(rows, start, colors, Move);
    RowsCount(rows, start, colors, Down);
    RowsCount(rows, start, colors, Print);
    RowsCount(rows, start, colors, Recolor);
    LengthByKinds(cmds);
  }

  /** A draw prints every chunk exactly once, rows in split order and chunks in row order. */
  lemma DrawPrintsInOrder(rows: seq<seq<Chunk>>, start: u16, colors: Colors)
    ensures Printed(DrawCommands(rows, start, colors)) == Flatten(rows)
  {
    RowsPrinted(rows, start, colors);
    PrintedAppend([MoveToColumn(start)], RowsCommands(rows, start, colors));
    assert Printed([MoveToColumn(start)]) == [] by { assert [MoveToColumn(start)][1..] == []; }
  }

  /**
   * A draw first moves to the start column and then moves there again for the
   * first row; every later move follows the placement rules.
   */
  lemma DrawPlaced(rows: seq<seq<Chunk>>, start: u16, colors: Colors)
    ensures var cmds := DrawCommands(rows, start, colors);
      && cmds[0] == MoveToColumn(start)
      && (rows != [] ==> |cmds| > 1 && cmds[1] == MoveToColumn(start))
      && Placed(cmds, start, colors)
  {
    RowsPlaced(rows, start, colors);
    RowsCount(rows, start, colors, Move);
    PlacedAppend([MoveToColumn(start)], RowsCommands(rows, start, colors), start, colors);
  }

  /**
   * The print of a chunk is followed at once by a colour re-assertion exactly
   * when the chunk is styled.
   */
  lemma DrawRecolorsIffStyled(rows: seq<seq<Chunk>>, start: u16, colors: Colors, i: nat)
    requires i < |DrawCommands(rows, start, colors)|
    requires DrawCommands(rows, start, colors)[i].PrintStyledContent?
    ensures var cmds := DrawCommands(rows, start, colors);
      (i + 1 < |cmds| && cmds[i + 1] == SetColors(colors)) <==> cmds[i].style != DefaultStyle
  {
    DrawPlaced(rows, start, colors);
  }

  /** The drawer's own stream: what `Draw` queues when no write fails. */
  lemma DrawerCommands(d: TextDrawer)
    ensures var cmds := d.Commands(); var rows := d.Rows();
      && |cmds| == 1 + |rows| + (if rows == [] then 0 else |rows| - 1) + |Flatten(rows)| + StyledCount(Flatten(rows))
      && Printed(cmds) == Flatten(rows)
      && Placed(cmds, d.positioning.startColumn, d.defaultColors)
  {
    DrawCommandCount(d.Rows(), d.positioning.startColumn, d.defaultColors);
    DrawPrintsInOrder(d.Rows(), d.positioning.startColumn, d.defaultColors);
    DrawPlaced(d.Rows(), d.positioning.startColumn, d.defaultColors);
  }

  /** One row of a default chunk and a styled chunk: two column moves, two prints, one re-assertion after the second. */
  lemma TwoChunkRow(plain: Chunk, styled: Chunk, start: u16, colors: Colors)
    requires plain.style == DefaultStyle && styled.style != DefaultStyle
    ensures DrawCommands([[plain, styled]], start, colors) == [
      MoveToColumn(start), MoveToColumn(start),
      PrintStyledContent(plain.text, plain.style), PrintStyledContent(styled.text, styled.style),
      SetColors(colors)]
  {
    var row: seq<Chunk> := [plain, styled];
    var rows: seq<seq<Chunk>> := [row];
    var first: seq<Chunk> := [plain];
    assert rows[..0] == [];
    assert row[..1] == first;
    assert first[..0] == [];
    assert ChunksCommands([plain], colors) == [PrintStyledContent(plain.text, plain.style)];
    assert ChunksCommands(row, colors) == [PrintStyledContent(plain.text, plain.style),
      PrintStyledContent(styled.text, styled.style), SetColors(colors)];
    assert RowsCommands([row], start, colors) == [MoveToColumn(start)] + ChunksCommands(row, colors);
  }

  // ---------------------------------------------------------------------------
  // Construction

  /**
   * The width is cast to `u16` before the size check, so a line 2^16 columns
   * wider than one that fits is accepted too, however narrow the space.
   */
  lemma WidthWrapsAtU16(layout: u16 -> Positioning, handle: Sink, line: WeightedLine, colors: Colors)
    requires 0x1_0000 <= line.width < 0x2_0000
    requires line.width - 0x1_0000 <= layout(line.width - 0x1_0000).maxLineLength
    ensures New(layout, handle, line, colors).Ok?
    ensures line.width > New(layout, handle, line, colors).value.positioning.maxLineLength
  {
    assert TextLength(line) == line.width - 0x1_0000;
  }
}
