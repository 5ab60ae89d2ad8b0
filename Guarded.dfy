/**
 * The scanner with the bound check that its `continue` paths skip: a
 * dropped value or a dropped `END:VEVENT` on the last line ends the scan
 * with the records emitted so far instead of reading `lines[lines.length]`.
 * Apart from that it is the same loop, one `Step` per line.
 */
module Guarded {
  import opened Wrappers
  import opened Text
  import opened Parser
  import opened ParserExamples
  import opened Generator
  import opened RoundTrip

  /** The loop run from cursor `i`, stopping whenever the cursor reaches the end. */
  function ScanGuarded(lines: seq<string>, i: nat, st: ScanState): Result<seq<Event>, ScanError>
    decreases |lines| - i
  {
    if i >= |lines| then Ok(st.events)
    else match Step(lines[i], st)
      case Throw(e) => Err(e)
      case Skip(next) => ScanGuarded(lines, i + 1, next)
      case Advance(next) => ScanGuarded(lines, i + 1, next)
  }

  function ParseGuarded(calendarData: string): Result<seq<Event>, ScanError>
  {
    ScanGuarded(Split(calendarData, '\n'), 0, Initial)
  }

  /** The corrected scan never reads past the last line. */
  lemma {:induction false} GuardedNeverOverruns(lines: seq<string>, i: nat, st: ScanState)
    ensures ScanGuarded(lines, i, st) != Err(ReadPastEnd)
    decreases |lines| - i
  {
    if i < |lines| {
      match Step(lines[i], st)
      case Throw(e) =>
        assert e == ValueMissing by {
          StepThrowsValueMissing(lines[i], st);
        }
      case Skip(next) => GuardedNeverOverruns(lines, i + 1, next);
      case Advance(next) => GuardedNeverOverruns(lines, i + 1, next);
    }
  }

  /** The only error a single step raises is a value without `:`. */
  lemma StepThrowsValueMissing(line: string, st: ScanState)
    ensures Step(line, st).Throw? ==> Step(line, st).error == ValueMissing
  {
  }

  /** Wherever the scan as written does not read past the end, the two agree. */
  lemma {:induction false} GuardedAgrees(lines: seq<string>, i: nat, st: ScanState)
    ensures Scan(lines, i, st) != Err(ReadPastEnd) ==> ScanGuarded(lines, i, st) == Scan(lines, i, st)
    decreases |lines| - i
  {
    if i < |lines| {
      match Step(lines[i], st)
      case Throw(e) =>
      case Skip(next) => GuardedAgrees(lines, i + 1, next);
      case Advance(next) =>
        if i + 1 < |lines| {
          GuardedAgrees(lines, i + 1, next);
        }
    }
  }

  /** For whole feeds: every result the source returns, the corrected scan returns too. */
  lemma ParseGuardedAgrees(calendarData: string)
    ensures Parse(calendarData) != Err(ReadPastEnd) ==> ParseGuarded(calendarData) == Parse(calendarData)
    ensures ParseGuarded(calendarData) != Err(ReadPastEnd)
  {
    GuardedAgrees(Split(calendarData, '\n'), 0, Initial);
    GuardedNeverOverruns(Split(calendarData, '\n'), 0, Initial);
  }

  /** A block without DTEND at the very end of the feed is dropped cleanly. */
  lemma GuardedMissingEnd(dt: string)
    requires PlainDateTime(dt)
    ensures ScanGuarded([BeginEvent, "DTSTART:" + dt, EndEvent], 0, Initial) == Ok([])
  {
    var lines := [BeginEvent, "DTSTART:" + dt, EndEvent];
    MarkerLines();
    StartLine(dt);
    var s1 := ScanState(true, Event(FlightBooked, "", ""), []);
    var s2 := ScanState(true, Event(FlightBooked, dt, ""), []);
    var s3 := s2.(reading := false);
    assert Step(lines[0], Initial) == Advance(s1);
    assert Step(lines[1], s1) == Advance(s2);
    assert Step(lines[2], s2) == Skip(s3);
    assert ScanGuarded(lines, 0, Initial) == ScanGuarded(lines, 1, s1);
    assert ScanGuarded(lines, 1, s1) == ScanGuarded(lines, 2, s2);
    assert ScanGuarded(lines, 2, s2) == ScanGuarded(lines, 3, s3);
  }

  /** The corrected scan also reads back what the writer writes. */
  lemma ParseGuardedGenerated(events: seq<Event>, clocks: seq<ClockReading>)
    requires |events| == |clocks|
    requires forall k :: 0 <= k < |events| ==> Regenerable(events[k])
    ensures ParseGuarded(Document(events, clocks)) == Ok(events)
  {
    ParseGenerated(events, clocks);
    ParseGuardedAgrees(Document(events, clocks));
  }
}
