# presenterm text line drawer, modelled in Dafny

This project models the text line drawer of presenterm (`src/render/text.rs`).
The drawer renders one logical line of styled text into the terminal. It has two steps:

- `TextDrawer::new` asks the layout for a `Positioning`. That is the number of columns the line may use and the column it starts at. It rejects the line with `TerminalTooSmall` only when the line does not fit and the space is at most `MINIMUM_LINE_LENGTH` (10) columns wide. In every other case it keeps its inputs unchanged.
- `TextDrawer::draw` queues crossterm commands on the output handle, in this order:
  - one `MoveToColumn(start_column)`;
  - for every row the line wraps into: another `MoveToColumn(start_column)`, then `MoveDown(1)` unless it is the first row;
  - for every chunk of the row: a styled print, then `SetColors` with the default colours when the chunk's style is not `TextStyle::default()`. Crossterm resets colours whenever attributes are applied, so the colours have to be set again.

  The first write that fails ends the draw with that write's error.

Files:

- `wrappers.dfy` (module `Wrappers`): `Option` and `Result`.
- `terminal.dfy` (module `Terminal`): the terminal types the drawer uses.
  - `Command` holds the four crossterm commands.
  - `Colors`, `TextStyle` and `DefaultStyle` are the colour and style values.
  - `u16` is Rust's 16-bit unsigned integer.
  - The class `Sink` is the `io::Write` handle. It keeps what was queued in `written`. The next `remaining` writes succeed; every write after them fails with `fault`. A draw stops at its first failed write, so a count of successful writes covers every failure the handle can produce.
- `text.dfy` (module `Text`): the core.
  - `New` is the construction step.
  - The specification functions `ChunkCommands`, `RowHead`, `RowCommands`, `ChunksCommands`, `RowsCommands` and `DrawCommands` give the full command stream of a draw.
  - The method `TextDrawer.Draw` and its loop steps `QueueRow`, `QueueChunk` and `QueueNext` queue that stream on a `Sink`. They are proved against those functions.
- `text_properties.dfy` (module `TextProperties`): properties of the stream. They are stated against reference definitions that work independently of the drawing loop:
  - `Flatten` joins the rows;
  - `StyledCount` counts styled chunks;
  - `Count` counts commands by kind;
  - `Printed` lists the chunks a stream prints;
  - `Placed` gives the placement rules.

The code moves to the start column first and then moves down (src/render/text.rs:49-52), rather than moving down and then to the column. The model follows the code.

The width used in the size check is `line.width() as u16`, which is the width modulo 2^16. So a line 65536 columns wider than one that fits passes the check, however narrow the space. The model follows the code, and `WidthWrapsAtU16` states this behaviour.

## Model

| member | source | states |
|---|---|---|
| `Text.TextLength` | src/render/text.rs:34 | The `as u16` cast: a width below 2^16 is kept, and any other width is reduced by a multiple of 2^16 into the `u16` range. |
| `Text.New` | src/render/text.rs:27-42 | Returns `TerminalTooSmall` exactly when the `u16` width exceeds the computed `max_line_length` and that length is at most 10. A length above 10, or a line that fits, always succeeds. On success the drawer holds the given handle, line and colours and the positioning the layout computed for the `u16` width, all unchanged. |
| `Text.TextDrawer.Draw` | src/render/text.rs:44-69 | Appends to the handle the complete command stream `DrawCommands(rows, start_column, default colours)` when the handle accepts that many writes, and returns `Ok`. Otherwise it appends exactly the part that was accepted before the first failure, which is a strict prefix of the stream, and returns that write's error. |
| `Text.QueueRow` | src/render/text.rs:48-67 | One pass of the row loop: appends `MoveToColumn(start)`, then `MoveDown(1)` if the row index is above 0, then each chunk's commands. On a failed write it stops with the output cut where the failure occurred. |
| `Text.QueueChunk` | src/render/text.rs:53-65 | One pass of the chunk loop: appends the styled print, then the default colours when the style is not the default. On a failed write it stops with the output cut where the failure occurred. |
| `Text.QueueNext` | src/render/text.rs:46 | One `queue(...)?`: the command is appended, or the error is returned and the output so far is exactly the accepted prefix of the draw. |
| `Terminal.Sink.Queue` | src/render/text.rs:46 | A write to the handle either appends the command or fails with the handle's error and leaves the output unchanged. |
| `Text.RowsPrefix` | src/render/text.rs:48-52 | The commands of the first rows and of the next row form a prefix of the commands of all rows: rows are drawn in split order. |
| `Text.ChunksPrefix` | src/render/text.rs:53-66 | The commands of the first chunks and of the next chunk form a prefix of the row's chunk commands: chunks are drawn in row order. |
| `TextProperties.DrawCommandCount` | src/render/text.rs:46-67 | A draw queues `1 + rows` column moves, `rows - 1` moves down (none without rows), one print per chunk and one colour re-assertion per styled chunk. It queues nothing else, so its length is `1 + rows + max(rows-1,0) + chunks + styled chunks`. |
| `TextProperties.DrawPrintsInOrder` | src/render/text.rs:48-56 | The chunks printed, in print order, are exactly the rows' chunks joined in split order. |
| `TextProperties.DrawPlaced` | src/render/text.rs:46-65 | The first command is `MoveToColumn(start_column)`, and with at least one row so is the second. Every column move goes to `start_column`. Every move down is `MoveDown(1)` and comes right after a column move. Every `SetColors` sets the default colours right after the print of a styled chunk. Every print of a styled chunk is followed at once by a `SetColors`. |
| `TextProperties.DrawRecolorsIffStyled` | src/render/text.rs:56-65 | A print is followed at once by `SetColors(default colours)` if and only if its style differs from the default style. |
| `TextProperties.DrawerCommands` | src/render/text.rs:44-69 | Applies the count, order and placement results to the stream of a constructed drawer, whose rows are the line split at `max_line_length`. |
| `TextProperties.TwoChunkRow` | src/render/text.rs:53-65 | One row with a default chunk and then a styled chunk draws as: two column moves, two prints, one colour re-assertion after the second print. |
| `TextProperties.WidthWrapsAtU16` | src/render/text.rs:34-41 | A line 2^16 columns wider than a width that fits is accepted, even though its real width exceeds the available length. |
| `TextProperties.RowsCount` | src/render/text.rs:48-67 | Counts by kind for the commands of all rows: one column move per row, one move down per row after the first, one print per chunk, one re-assertion per styled chunk. |
| `TextProperties.RowsPrinted` | src/render/text.rs:48-56 | The rows' commands print the rows' chunks, joined in order. |
| `TextProperties.ChunksShape` | src/render/text.rs:53-65 | A row's chunk commands contain only prints and re-assertions: one print per chunk, one re-assertion per styled chunk, and the chunks printed in order. |
| `TextProperties.ChunkShape` | src/render/text.rs:56-65 | One chunk yields one print of itself, plus one re-assertion exactly when it is styled. |
| `TextProperties.RowPlaced` | src/render/text.rs:49-65 | A row's commands start with `MoveToColumn(start)` and follow the placement rules. |

## Left out

- The byte encoding of the crossterm commands and the `io::Write` sink itself. Commands are values appended to a sequence. A write that fails is modelled as writing nothing, so partly written bytes are not modelled.
- `Layout::compute`: it is not part of this model. `New` takes it as a function from the `u16` width to a `Positioning`, already applied to the alignment and window size. The model states no rounding rule for centre or right alignment and no bound relating the positioning to the window width.
- `WeightedLine::split` and `WeightedLine::width`: they are not part of this model. The line carries its width and its split function. The model states no bound on the width of a row, and no relation between the width and the number of rows.
- `TextStyle::apply` and the internals of `TextStyle` and `Colors`: a print carries the chunk's text and style as they are. The fields of `TextStyle` stand in for its real contents, because the drawer only compares a style with the default.
- Lifetimes, borrowing and the consuming `self` of `draw`: a drawer is a value, so the model does not prevent drawing the same drawer twice.
- The nested loops of `draw` are split into `QueueRow` (one row) and `QueueChunk` (one chunk), and every `?` goes through `QueueNext`. The commands and the early exits are the same as in the source.
