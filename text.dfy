/**
 * The line drawer of src/render/text.rs: `New` decides whether a styled line
 * can be drawn in the space the layout gives it, and `TextDrawer.Draw` queues
 * the cursor moves, styled prints and colour re-assertions that draw it.
 */
module Text {
  import opened Wrappers
  import opened Terminal

  /** Below this width a line that does not fit is rejected rather than wrapped. */
  const MinimumLineLength: u16 := 10

  /** A run of text with one style. */
  datatype Chunk = Chunk(text: string, style: TextStyle)

  /** Whether a chunk's style carries anything at all, so that printing it disturbs the colours. */
  predicate IsStyled(chunk: Chunk) {
    chunk.style != DefaultStyle
  }

  /**
   * A line of chunks with its display width. How it wraps into rows of at most
   * a given number of columns belongs to the line, so it is carried as a function.
   */
  datatype WeightedLine = WeightedLine(width: nat, split: nat -> seq<seq<Chunk>>)

  /** Where the layout places a line: the columns it may use and the column it starts at. */
  datatype Positioning = Positioning(maxLineLength: u16, startColumn: u16)

  datatype RenderError = TerminalTooSmall | Io(cause: IoError)

  /** The line's width as a `u16`: the cast keeps the width modulo 2^16. */
  function TextLength(line: WeightedLine): (n: u16)
    ensures line.width < 0x1_0000 ==> n == line.width
    ensures n <= line.width && (line.width - n) % 0x1_0000 == 0
  {
    line.width % 0x1_0000
  }

  /** The command sequence of one chunk: its print, then the default colours again if it is styled. */
  function ChunkCommands(chunk: Chunk, colors: Colors): seq<Command> {
    [PrintStyledContent(chunk.text, chunk.style)]
      + if IsStyled(chunk) then [SetColors(Colors(colors.background, colors.foreground))] else []
  }

  /** The commands of a row's chunks, in order. */
  function ChunksCommands(chunks: seq<Chunk>, colors: Colors): seq<Command>
    decreases |chunks|
  {
    if chunks == [] then []
    else ChunksCommands(chunks[..|chunks| - 1], colors) + ChunkCommands(chunks[|chunks| - 1], colors)
  }

  /** How the row with the given index begins: back to the start column, then one row down unless it is the first. */
  function RowHead(index: nat, start: u16): seq<Command> {
    [MoveToColumn(start)] + if index > 0 then [MoveDown(1)] else []
  }

  /** The commands of the row with the given index: its head, then its chunks. */
  function RowCommands(row: seq<Chunk>, index: nat, start: u16, colors: Colors): seq<Command> {
    RowHead(index, start) + ChunksCommands(row, colors)
  }

  /** The commands of all rows, in split order. */
  function RowsCommands(rows: seq<seq<Chunk>>, start: u16, colors: Colors): seq<Command>
    decreases |rows|
  {
    if rows == [] then []
    else RowsCommands(rows[..|rows| - 1], start, colors) + RowCommands(rows[|rows| - 1], |rows| - 1, start, colors)
  }

  /** Everything a successful draw of these rows queues. */
  function DrawCommands(rows: seq<seq<Chunk>>, start: u16, colors: Colors): seq<Command> {
    [MoveToColumn(start)] + RowsCommands(rows, start, colors)
  }

  function Min(a: nat, b: nat): nat {
    if a <= b then a else b
  }

  /**
   * A drawer that passed the size check. It holds the output handle, the line,
   * the positioning the layout computed and the default colours.
   */
  datatype TextDrawer = TextDrawer(handle: Sink, line: WeightedLine, positioning: Positioning, defaultColors: Colors)
  {
    /** The rows the line wraps into at the available width. */
    function Rows(): seq<seq<Chunk>> {
      line.split(positioning.maxLineLength)
    }

    /** The commands a draw queues when no write fails. */
    function Commands(): seq<Command> {
      DrawCommands(Rows(), positioning.startColumn, defaultColors)
    }

    /**
     * Queues the commands that draw the line. The first failing write ends the
     * draw with that write's error; what was queued before it stays queued.
     */
    method Draw() returns (r: Result<(), RenderError>)
      modifies handle
      ensures var n := Min(|Commands()|, old(handle.remaining));
        && handle.written == old(handle.written) + Commands()[..n]
        && handle.remaining == old(handle.remaining) - n
      ensures r.Ok? <==> |Commands()| <= old(handle.remaining)
      ensures r.Err? ==> r.error == Io(handle.fault)
      ensures r.Err? ==> handle.written < old(handle.written) + Commands()
    {
      var start := positioning.startColumn;
      var colors := defaultColors;
      var rows := line.split(positioning.maxLineLength);
      ghost var full := DrawCommands(rows, start, colors);
      ghost var before := handle.written;
      ghost var budget := handle.remaining;
      var q := QueueNext(handle, MoveToColumn(start), before, [], full, budget);
      if q.Err? {
        return Err(Io(q.error));
      }

      var i := 0;
      while i < |rows|
        invariant 0 <= i <= |rows|
        invariant OnTrack(handle, before, [MoveToColumn(start)] + RowsCommands(rows[..i], start, colors), full, budget)
      {
        ghost var done := [MoveToColumn(start)] + RowsCommands(rows[..i], start, colors);
        RowInDraw(rows, i, start, colors);
        q := QueueRow(handle, rows[i], i, start, colors, before, done, full, budget);
        if q.Err? {
          return Err(Io(q.error));
        }
        i := i + 1;
      }
      assert rows[..i] == rows;
      return Ok(());
    }
  }

  /**
   * `TextDrawer::new`: computes the positioning for the line's `u16` width and
   * rejects the line only when it does not fit and the available width is at
   * most `MinimumLineLength`; otherwise keeps its inputs as they are. A line
   * that does not fit a wider space is accepted and wrapped when drawn.
   */
  function New(layout: u16 -> Positioning, handle: Sink, line: WeightedLine, defaultColors: Colors): (r: Result<TextDrawer, RenderError>)
    ensures var p := layout(TextLength(line));
      r.Err? <==> TextLength(line) > p.maxLineLength && p.maxLineLength <= MinimumLineLength
    ensures var p := layout(TextLength(line));
      MinimumLineLength < p.maxLineLength || TextLength(line) <= p.maxLineLength ==> r.Ok?
    ensures r.Err? ==> r.error == TerminalTooSmall
    ensures r.Ok? ==> r.value == TextDrawer(handle, line, layout(TextLength(line)), defaultColors)
  {
    var textLength := TextLength(line);
    var positioning := layout(textLength);
    if textLength > positioning.maxLineLength && positioning.maxLineLength <= MinimumLineLength then
      Err(TerminalTooSmall)
    else
      Ok(TextDrawer(handle, line, positioning, defaultColors))
  }

  /**
   * One pass of the row loop of a draw whose complete output is `full`: back
   * to the start column, one row down unless it is the first row, then each
   * chunk in order.
   */
  method QueueRow(handle: Sink, row: seq<Chunk>, index: nat, start: u16, colors: Colors,
                  ghost before: seq<Command>, ghost done: seq<Command>, ghost full: seq<Command>, ghost budget: nat)
    returns (r: Result<(), IoError>)
    requires OnTrack(handle, before, done, full, budget)
    requires done + RowCommands(row, index, start, colors) <= full
    modifies handle
    ensures r.Ok? ==> OnTrack(handle, before, done + RowCommands(row, index, start, colors), full, budget)
    ensures r.Err? ==> r.error == handle.fault && CutShort(handle, before, full, budget)
  {
    ghost var head := RowHead(index, start);
    assert done + RowCommands(row, index, start, colors) == done + head + ChunksCommands(row, colors);
    PrefixWithin(done, [MoveToColumn(start)], RowCommands(row, index, start, colors), full);
    r := QueueNext(handle, MoveToColumn(start), before, done, full, budget);
    if r.Err? {
      return;
    }
    if index > 0 {
      PrefixWithin(done, [MoveToColumn(start), MoveDown(1)], RowCommands(row, index, start, colors), full);
      r := QueueNext(handle, MoveDown(1), before, done + [MoveToColumn(start)], full, budget);
      if r.Err? {
        return;
      }
    }

    var j := 0;
    while j < |row|
      invariant 0 <= j <= |row|
      invariant r.Ok?
      invariant OnTrack(handle, before, done + head + ChunksCommands(row[..j], colors), full, budget)
    {
      ChunkInDraw(done + head, row, j, colors, full);
      r := QueueChunk(handle, row[j], colors, before, done + head + ChunksCommands(row[..j], colors), full, budget);
      if r.Err? {
        return;
      }
      j := j + 1;
    }
    assert row[..j] == row;
  }

  /**
   * One pass of the chunk loop: print the chunk with its style and, when the
   * style carries anything, set the default colours again, since applying
   * attributes resets the terminal's colours.
   */
  method QueueChunk(handle: Sink, chunk: Chunk, colors: Colors,
                    ghost before: seq<Command>, ghost done: seq<Command>, ghost full: seq<Command>, ghost budget: nat)
    returns (r: Result<(), IoError>)
    requires OnTrack(handle, before, done, full, budget)
    requires done + ChunkCommands(chunk, colors) <= full
    modifies handle
    ensures r.Ok? ==> OnTrack(handle, before, done + ChunkCommands(chunk, colors), full, budget)
    ensures r.Err? ==> r.error == handle.fault && CutShort(handle, before, full, budget)
  {
    var printed := PrintStyledContent(chunk.text, chunk.style);
    PrefixWithin(done, [printed], ChunkCommands(chunk, colors), full);
    r := QueueNext(handle, printed, before, done, full, budget);
    if r.Err? {
      return;
    }
    if chunk.style != DefaultStyle {
      r := QueueNext(handle, SetColors(Colors(colors.background, colors.foreground)), before, done + [printed], full, budget);
    }
  }

  /** A draw whose complete output is `full` has queued `done` so far, all of it successfully. */
  ghost predicate OnTrack(handle: Sink, before: seq<Command>, done: seq<Command>, full: seq<Command>, budget: nat)
    reads handle
  {
    && handle.written == before + done
    && |done| + handle.remaining == budget
    && done <= full
  }

  /** A draw whose complete output is `full` was cut short after as much of it as the budget allowed. */
  ghost predicate CutShort(handle: Sink, before: seq<Command>, full: seq<Command>, budget: nat)
    reads handle
  {
    && budget < |full|
    && handle.written == before + full[..budget]
    && handle.remaining == 0
  }

  /**
   * One `handle.queue(command)?` of a draw whose complete output is `full`,
   * where `command` is the next command of `full`.
   */
  method QueueNext(handle: Sink, command: Command, ghost before: seq<Command>, ghost done: seq<Command>,
                   ghost full: seq<Command>, ghost budget: nat) returns (r: Result<(), IoError>)
    requires OnTrack(handle, before, done, full, budget)
    requires done + [command] <= full
    modifies handle
    ensures r.Ok? ==> OnTrack(handle, before, done + [command], full, budget)
    ensures r.Err? ==> r.error == handle.fault && CutShort(handle, before, full, budget)
  {
    r := handle.Queue(command);
  }

  /** The commands of the first `i` rows come first among those of all rows. */
  lemma {:induction false} RowsPrefix(rows: seq<seq<Chunk>>, i: nat, start: u16, colors: Colors)
    requires i < |rows|
    ensures RowsCommands(rows[..i], start, colors) + RowCommands(rows[i], i, start, colors)
      <= RowsCommands(rows, start, colors)
    decreases |rows|
  {
    var n := |rows|;
    assert rows[..i + 1][..i] == rows[..i];
    if i + 1 < n {
      RowsPrefix(rows[..n - 1], i, start, colors);
      assert rows[..n - 1][..i] == rows[..i];
    } else {
      assert rows[..n - 1] == rows[..i];
    }
  }

  /** The commands of the first `j` chunks and the next chunk's come first among those of the whole row. */
  lemma {:induction false} ChunksPrefix(row: seq<Chunk>, j: nat, colors: Colors)
    requires j < |row|
    ensures ChunksCommands(row[..j], colors) + ChunkCommands(row[j], colors) <= ChunksCommands(row, colors)
    decreases |row|
  {
    var n := |row|;
    if j + 1 < n {
      ChunksPrefix(row[..n - 1], j, colors);
      assert row[..n - 1][..j] == row[..j];
    } else {
      assert row[..n - 1] == row[..j];
    }
  }

  /** The next row's commands, after those of the rows before it, are a prefix of the whole draw. */
  lemma RowInDraw(rows: seq<seq<Chunk>>, i: nat, start: u16, colors: Colors)
    requires i < |rows|
    ensures [MoveToColumn(start)] + RowsCommands(rows[..i], start, colors) + RowCommands(rows[i], i, start, colors)
      <= DrawCommands(rows, start, colors)
    ensures [MoveToColumn(start)] + RowsCommands(rows[..i + 1], start, colors)
      == [MoveToColumn(start)] + RowsCommands(rows[..i], start, colors) + RowCommands(rows[i], i, start, colors)
  {
    assert rows[..i + 1][..i] == rows[..i];
    RowsPrefix(rows, i, start, colors);
    PrefixWithin([MoveToColumn(start)], RowsCommands(rows[..i], start, colors) + RowCommands(rows[i], i, start, colors),
                 RowsCommands(rows, start, colors), DrawCommands(rows, start, colors));
  }

  /** Within a row placed after `lead`, the next chunk's print and colour re-assertion come next in the draw. */
  lemma ChunkInDraw(lead: seq<Command>, row: seq<Chunk>, j: nat, colors: Colors, full: seq<Command>)
    requires j < |row|
    requires lead + ChunksCommands(row, colors) <= full
    ensures lead + ChunksCommands(row[..j], colors) + ChunkCommands(row[j], colors) <= full
    ensures lead + ChunksCommands(row[..j + 1], colors) == lead + ChunksCommands(row[..j], colors) + ChunkCommands(row[j], colors)
  {
    ChunksPrefix(row, j, colors);
    assert row[..j + 1][..j] == row[..j];
    PrefixWithin(lead, ChunksCommands(row[..j], colors) + ChunkCommands(row[j], colors), ChunksCommands(row, colors), full);
  }

  /** A prefix of a part is a prefix of anything the part begins, after the same lead. */
  lemma PrefixWithin(lead: seq<Command>, part: seq<Command>, whole: seq<Command>, full: seq<Command>)
    requires part <= whole
    requires lead + whole <= full
    ensures lead + part <= full
  {
    assert (lead + whole)[..|lead + part|] == lead + part;
  }
}
