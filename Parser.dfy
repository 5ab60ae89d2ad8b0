/**
 * The VEVENT scanner of the calendar route (`parseCalendarEvents`).
 *
 * The feed is split on `\n` and scanned by a cursor. The scan keeps an
 * "inside VEVENT" flag, a scratch record and the list of records emitted
 * so far. `Step` is what one pass of the loop body does to that state;
 * `Scan` runs the loop from a cursor to its end, including the two ways
 * the source throws; `ParseCalendarEvents` is the loop itself.
 */
module Parser {
  import opened Wrappers
  import opened Text

  const FlightBooked := "Flight Booked"
  const BeginEvent := "BEGIN:VEVENT"
  const EndEvent := "END:VEVENT"
  const StartKey := "DTSTART"
  const EndKey := "DTEND"

  /** An extracted calendar event. */
  datatype Event = Event(title: string, start: string, end: string)

  /** The scratch record as it is created and as it is reset after a push. */
  const Blank := Event("", "", "")

  /** Why the scan throws. */
  datatype ScanError =
    | ValueMissing  // a DTSTART or DTEND line without `:`: `split(':')[1]` is undefined
    | ReadPastEnd   // the loop head reads `lines[lines.length]`, which is undefined

  /** The loop's variables other than the cursor. */
  datatype ScanState = ScanState(reading: bool, scratch: Event, events: seq<Event>)

  const Initial := ScanState(false, Blank, [])

  /**
   * What one pass of the loop body does. `Advance` is the path that reaches
   * the bound check at the bottom of the loop; `Skip` is a `continue`, which
   * bypasses it; `Throw` is a TypeError.
   */
  datatype StepResult = Advance(next: ScanState) | Skip(next: ScanState) | Throw(error: ScanError)

  /** `line.split(':')[1].replace('\r', '')`: the property value, if there is one. */
  function ReadValue(line: string): Option<string>
  {
    var parts := Split(line, ':');
    if |parts| < 2 then None else Some(ReplaceFirst(parts[1], '\r'))
  }

  /** `value.split('T').length != 2`: not a DATE-TIME in this scanner's eyes. */
  predicate Malformed(value: string)
  {
    |Split(value, 'T')| != 2
  }

  function Step(line: string, st: ScanState): StepResult
  {
    var reading := st.reading || StartsWith(line, BeginEvent);
    if reading then
      // the title is written on every line inside a block, before any field
      ReadStart(line, st.scratch.(title := FlightBooked), st.events)
    else
      CloseBlock(line, st.(reading := false))
  }

  function ReadStart(line: string, ev: Event, events: seq<Event>): StepResult
  {
    if StartsWith(line, StartKey) then
      match ReadValue(line)
      case None => Throw(ValueMissing)
      case Some(v) =>
        if Malformed(v) then Skip(ScanState(false, ev.(start := v), events))
        else ReadEnd(line, ev.(start := v), events)
    else ReadEnd(line, ev, events)
  }

  function ReadEnd(line: string, ev: Event, events: seq<Event>): StepResult
  {
    if StartsWith(line, EndKey) then
      match ReadValue(line)
      case None => Throw(ValueMissing)
      case Some(v) =>
        if Malformed(v) then Skip(ScanState(false, ev.(end := v), events))
        else CloseBlock(line, ScanState(true, ev.(end := v), events))
    else CloseBlock(line, ScanState(true, ev, events))
  }

  /** The `END:VEVENT` test, which runs whether or not a block is open. */
  function CloseBlock(line: string, st: ScanState): StepResult
  {
    if StartsWith(line, EndEvent) then
      if st.scratch.start == "" || st.scratch.end == "" then Skip(st.(reading := false))
      else Advance(ScanState(false, Blank, st.events + [st.scratch]))
    else Advance(st)
  }

  /** The loop run from cursor `i` in state `st`. */
  function Scan(lines: seq<string>, i: nat, st: ScanState): Result<seq<Event>, ScanError>
    decreases |lines| - i
  {
    if i >= |lines| then Err(ReadPastEnd)
    else match Step(lines[i], st)
      case Throw(e) => Err(e)
      case Skip(next) => Scan(lines, i + 1, next)
      case Advance(next) => if i + 1 >= |lines| then Ok(next.events) else Scan(lines, i + 1, next)
  }

  function ParseLines(lines: seq<string>): Result<seq<Event>, ScanError>
  {
    Scan(lines, 0, Initial)
  }

  /** `parseCalendarEvents(calendarData)`, with a throw as `Err`. */
  function Parse(calendarData: string): Result<seq<Event>, ScanError>
  {
    ParseLines(Split(calendarData, '\n'))
  }

  /** The loop of `parseCalendarEvents`, statement by statement. */
  method ParseCalendarEvents(calendarData: string) returns (r: Result<seq<Event>, ScanError>)
    ensures r == Parse(calendarData)
  {
    var lines := Split(calendarData, '\n');
    var events: seq<Event> := [];
    var running := true;
    var line := 0;
    var readingEvent := false;
    var event := Blank;
    while running
      invariant line <= |lines|
      invariant running ==> Scan(lines, line, ScanState(readingEvent, event, events)) == Parse(calendarData)
      invariant !running ==> Parse(calendarData) == Ok(events)
      decreases if running then |lines| + 1 - line else 0
    {
      if line >= |lines| {
        return Err(ReadPastEnd);
      }
      var text := lines[line];
      if StartsWith(text, BeginEvent) {
        readingEvent := true;
      }
      if readingEvent {
        event := event.(title := FlightBooked);
        if StartsWith(text, StartKey) {
          var parts := Split(text, ':');
          if |parts| < 2 {
            return Err(ValueMissing);
          }
          event := event.(start := ReplaceFirst(parts[1], '\r'));
          if |Split(event.start, 'T')| != 2 {
            readingEvent := false;
            line := line + 1;
            continue;
          }
        }
        if StartsWith(text, EndKey) {
          var parts := Split(text, ':');
          if |parts| < 2 {
            return Err(ValueMissing);
          }
          event := event.(end := ReplaceFirst(parts[1], '\r'));
          if |Split(event.end, 'T')| != 2 {
            readingEvent := false;
            line := line + 1;
            continue;
          }
        }
        // the source's `if (!readingEvent) continue` here is unreachable:
        // the flag was set on entry and every path that clears it has left
      }
      if StartsWith(text, EndEvent) {
        readingEvent := false;
        if event.start == "" || event.end == "" {
          line := line + 1;
          continue;
        }
        events := events + [event];
        event := Blank;
      }
      line := line + 1;
      if line >= |lines| {
        running := false;
      }
    }
    return Ok(events);
  }
}
