/**
 * The terminal side of the text drawer: the crossterm commands it queues, the
 * colour and style values it compares and forwards, and the `io::Write` handle
 * the commands are queued on. Only what the drawer relies on is modelled: the
 * byte encoding of the commands is not.
 */
module Terminal {
  import opened Wrappers

  /** Rust's `u16`. */
  type u16 = x: int | 0 <= x < 0x1_0000

  /** A terminal colour; its encoding is not part of this model. */
  type Color = nat

  /** A background/foreground pair; `None` leaves the terminal's own colour. */
  datatype Colors = Colors(background: Option<Color>, foreground: Option<Color>)

  /**
   * A text style: attribute flags plus colours. The drawer only ever asks
   * whether a style equals `DefaultStyle`, so the fields stand in for the
   * style's internals.
   */
  datatype TextStyle = TextStyle(flags: nat, colors: Colors)

  /** `TextStyle::default()`: no attributes and no colours. */
  const DefaultStyle: TextStyle := TextStyle(0, Colors(None, None))

  /** The crossterm commands the drawer queues. */
  datatype Command =
    | MoveToColumn(column: u16)
    | MoveDown(rows: u16)
    | PrintStyledContent(text: string, style: TextStyle)
    | SetColors(colors: Colors)

  /** The error a failed write reports. */
  datatype IoError = IoError(code: int)

  /**
   * The output handle. `written` is everything queued so far; the next
   * `remaining` writes succeed and every write after them fails with `fault`.
   */
  class Sink {
    var written: seq<Command>
    var remaining: nat
    const fault: IoError

    constructor (capacity: nat, fault: IoError)
      ensures written == [] && remaining == capacity && this.fault == fault
    {
      written := [];
      remaining := capacity;
      this.fault := fault;
    }

    /** `handle.queue(command)`: appends the command, or fails and leaves the output alone. */
    method Queue(command: Command) returns (r: Result<(), IoError>)
      modifies this
      ensures old(remaining) == 0 ==> r == Err(fault) && written == old(written) && remaining == 0
      ensures old(remaining) > 0 ==>
        r == Ok(()) && written == old(written) + [command] && remaining == old(remaining) - 1
    {
      if remaining == 0 {
        r := Err(fault);
      } else {
        written := written + [command];
        remaining := remaining - 1;
        r := Ok(());
      }
    }
  }
}
