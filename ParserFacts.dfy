/**
 * What the VEVENT scanner promises: how a property value is extracted,
 * which step may emit a record and which may reset the scratch record, the
 * title invariant, the bound on the number of records, and what happens
 * on a feed with no `BEGIN:VEVENT` line.
 */
module ParserFacts {
  import opened Wrappers
  import opened Text
  import opened Parser

  // ---------------------------------------------------------------------
  // Value extraction
  // ---------------------------------------------------------------------

  /** A value exists exactly when the line has a `:`. */
  lemma ReadValueDefined(line: string)
    ensures ReadValue(line).Some? <==> ':' in line
  {
    CountPositive(line, ':');
  }

  /**
   * The value is the text between the first and the second `:` (or the end
   * of the line), with its first carriage return removed.
   */
  lemma ReadValueBetweenColons(key: string, v: string, rest: string)
    requires ':' !in key && ':' !in v
    ensures ReadValue(key + ":" + v) == Some(ReplaceFirst(v, '\r'))
    ensures ReadValue(key + ":" + v + ":" + rest) == Some(ReplaceFirst(v, '\r'))
  {
    ValueToEnd(key, v);
    ValueToColon(key, v, rest);
  }

  lemma ValueToEnd(key: string, v: string)
    requires ':' !in key && ':' !in v
    ensures Split(key + ":" + v, ':') == [key, v]
  {
    assert key + ":" + v == key + [':'] + v;
    SplitAtFirst(key, ':', v);
    SplitFree(v, ':');
  }

  lemma ValueToColon(key: string, v: string, rest: string)
    requires ':' !in key && ':' !in v
    ensures var parts := Split(key + ":" + v + ":" + rest, ':');
      |parts| >= 2 && parts[1] == v
  {
    var tail := v + [':'] + rest;
    assert key + ":" + v + ":" + rest == key + [':'] + tail;
    SplitAtFirst(key, ':', tail);
    SplitAtFirst(v, ':', rest);
  }

  /** A value is malformed exactly when it does not hold exactly one `T`. */
  lemma MalformedIffNotOneT(v: string)
    ensures Malformed(v) <==> Count(v, 'T') != 1
  {
  }

  /** A DATE-TIME `date T time` with no other `T` is accepted; a bare DATE is not. */
  lemma DateTimeAccepted(date: string, time: string)
    requires 'T' !in date && 'T' !in time
    ensures !Malformed(date + "T" + time)
    ensures Malformed(date)
  {
    SplitFree(time, 'T');
    SplitAtFirst(date, 'T', time);
    assert date + "T" + time == date + ['T'] + time;
    SplitFree(date, 'T');
  }

  // ---------------------------------------------------------------------
  // One step of the loop
  // ---------------------------------------------------------------------

  /** A record fit to be emitted. */
  predicate Emittable(e: Event)
  {
    e.title == FlightBooked && e.start != "" && e.end != ""
  }

  /**
   * A step either leaves the output list alone and changes a scratch field
   * only when the line carries that field (the title only to
   * "Flight Booked"), or it is an `END:VEVENT` line that reaches the bound
   * check after appending exactly the scratch record, both of whose dates
   * are non-empty, and then resets the scratch record. No other path
   * resets the scratch record.
   */
  lemma StepFrame(line: string, st: ScanState)
    requires !Step(line, st).Throw?
    ensures var n := Step(line, st).next;
      (n.events == st.events
        && (n.scratch.start == st.scratch.start || StartsWith(line, StartKey))
        && (n.scratch.end == st.scratch.end || StartsWith(line, EndKey))
        && (n.scratch.title == st.scratch.title || n.scratch.title == FlightBooked))
      || (StartsWith(line, EndEvent) && Step(line, st).Advance?
        && |n.events| == |st.events| + 1 && n.events[..|st.events|] == st.events
        && n.events[|st.events|].start == st.scratch.start && st.scratch.start != ""
        && n.events[|st.events|].end == st.scratch.end && st.scratch.end != ""
        && n.scratch == Blank)
  {
    assert (st.events + [st.scratch])[..|st.events|] == st.events;
    assert (st.events + [st.scratch.(title := FlightBooked)])[..|st.events|] == st.events;
  }

  /** The flag is cleared by every `continue` path. */
  lemma SkipClearsFlag(line: string, st: ScanState)
    requires Step(line, st).Skip?
    ensures !Step(line, st).next.reading
  {
  }

  /**
   * A malformed DTSTART value inside a block is stored, clears the flag and
   * skips the rest of the line, DTEND and `END:VEVENT` tests included; the
   * end date stays.
   */
  lemma MalformedStartSkips(line: string, st: ScanState, v: string)
    requires st.reading || StartsWith(line, BeginEvent)
    requires StartsWith(line, StartKey)
    requires ReadValue(line) == Some(v) && Malformed(v)
    ensures Step(line, st) == Skip(ScanState(false, Event(FlightBooked, v, st.scratch.end), st.events))
  {
  }

  /**
   * A malformed DTEND value inside a block is stored, clears the flag and
   * skips the `END:VEVENT` test; the start date stays.
   */
  lemma MalformedEndSkips(line: string, st: ScanState, v: string)
    requires st.reading || StartsWith(line, BeginEvent)
    requires StartsWith(line, EndKey)
    requires ReadValue(line) == Some(v) && Malformed(v)
    ensures Step(line, st) == Skip(ScanState(false, Event(FlightBooked, st.scratch.start, v), st.events))
  {
    // `DTEND` and `DTSTART` differ at index 2, so the DTSTART branch is not taken
    assert line[2] == EndKey[2] != StartKey[2];
    if |StartKey| <= |line| {
      assert line[..|StartKey|][2] == line[2];
    }
  }

  /** A DTSTART line without `:` inside a block throws: `split(':')[1]` is undefined. */
  lemma ColonlessStartThrows(line: string, st: ScanState)
    requires st.reading || StartsWith(line, BeginEvent)
    requires StartsWith(line, StartKey) && ':' !in line
    ensures Step(line, st) == Throw(ValueMissing)
  {
    ReadValueDefined(line);
  }

  /** A DTEND line without `:` inside a block throws in the same way. */
  lemma ColonlessEndThrows(line: string, st: ScanState)
    requires st.reading || StartsWith(line, BeginEvent)
    requires StartsWith(line, EndKey) && ':' !in line
    ensures Step(line, st) == Throw(ValueMissing)
  {
    ReadValueDefined(line);
    // `DTEND` and `DTSTART` differ at index 2, so the DTSTART branch is not taken
    assert line[2] == EndKey[2] != StartKey[2];
    if |StartKey| <= |line| {
      assert line[..|StartKey|][2] == line[2];
    }
  }

  /** Inside a block, a scratch date is never set without the title. */
  ghost predicate Inv(st: ScanState)
  {
    ((st.scratch.start != "" || st.scratch.end != "") ==> st.scratch.title == FlightBooked)
    && forall k :: 0 <= k < |st.events| ==> Emittable(st.events[k])
  }

  lemma StepKeepsInv(line: string, st: ScanState)
    requires Inv(st) && !Step(line, st).Throw?
    ensures Inv(Step(line, st).next)
  {
    if st.reading || StartsWith(line, BeginEvent) {
      ReadStartKeepsInv(line, st.scratch.(title := FlightBooked), st.events);
    } else {
      CloseBlockKeepsInv(line, st.(reading := false));
    }
  }

  lemma CloseBlockKeepsInv(line: string, st: ScanState)
    requires Inv(st)
    ensures Inv(CloseBlock(line, st).next)
  {
    if StartsWith(line, EndEvent) && st.scratch.start != "" && st.scratch.end != "" {
      assert Emittable(st.scratch);
      var evs := st.events + [st.scratch];
      assert forall k :: 0 <= k < |st.events| ==> evs[k] == st.events[k];
    }
  }

  lemma ReadEndKeepsInv(line: string, ev: Event, events: seq<Event>)
    requires ev.title == FlightBooked && Inv(ScanState(true, ev, events))
    requires !ReadEnd(line, ev, events).Throw?
    ensures Inv(ReadEnd(line, ev, events).next)
  {
    if StartsWith(line, EndKey) && ReadValue(line).Some? {
      var v := ReadValue(line).value;
      if !Malformed(v) {
        CloseBlockKeepsInv(line, ScanState(true, ev.(end := v), events));
      }
    } else if !StartsWith(line, EndKey) {
      CloseBlockKeepsInv(line, ScanState(true, ev, events));
    }
  }

  lemma ReadStartKeepsInv(line: string, ev: Event, events: seq<Event>)
    requires ev.title == FlightBooked && Inv(ScanState(true, ev, events))
    requires !ReadStart(line, ev, events).Throw?
    ensures Inv(ReadStart(line, ev, events).next)
  {
    if StartsWith(line, StartKey) && ReadValue(line).Some? {
      var v := ReadValue(line).value;
      if !Malformed(v) {
        ReadEndKeepsInv(line, ev.(start := v), events);
      }
    } else if !StartsWith(line, StartKey) {
      ReadEndKeepsInv(line, ev, events);
    }
  }

  // ---------------------------------------------------------------------
  // The whole loop
  // ---------------------------------------------------------------------

  /** Number of lines that start with `prefix`. */
  function CountPrefixed(lines: seq<string>, prefix: string): nat
  {
    if lines == [] then 0
    else (if StartsWith(lines[0], prefix) then 1 else 0) + CountPrefixed(lines[1..], prefix)
  }

  /**
   * A completed scan only appends to the list it started with, at most once
   * per remaining `END:VEVENT` line, and only records fit to be emitted.
   */
  lemma {:induction false} ScanEmits(lines: seq<string>, i: nat, st: ScanState, evs: seq<Event>)
    requires i <= |lines|
    requires Inv(st)
    requires Scan(lines, i, st) == Ok(evs)
    ensures |st.events| <= |evs| <= |st.events| + CountPrefixed(lines[i..], EndEvent)
    ensures evs[..|st.events|] == st.events
    ensures forall k :: 0 <= k < |evs| ==> Emittable(evs[k])
    decreases |lines| - i
  {
    var step := Step(lines[i], st);
    StepFrame(lines[i], st);
    StepKeepsInv(lines[i], st);
    var n := step.next;
    assert lines[i..][1..] == lines[i + 1..];
    if i + 1 < |lines| || step.Skip? {
      ScanEmits(lines, i + 1, n, evs);
      assert evs[..|st.events|] == evs[..|n.events|][..|st.events|];
    } else {
      assert lines[i + 1..] == [];
    }
  }

  /**
   * The emission rule: a feed that parses yields at most one record per
   * `END:VEVENT` line, each titled "Flight Booked" with both dates set.
   */
  lemma ParseEmits(calendarData: string)
    requires Parse(calendarData).Ok?
    ensures var lines := Split(calendarData, '\n');
      var evs := Parse(calendarData).value;
      |evs| <= CountPrefixed(lines, EndEvent)
      && forall k :: 0 <= k < |evs| ==> Emittable(evs[k])
  {
    var lines := Split(calendarData, '\n');
    ScanEmits(lines, 0, Initial, Parse(calendarData).value);
    assert lines[0..] == lines;
  }

  /**
   * From a closed block with a blank scratch record, and without a
   * `BEGIN:VEVENT` line ahead, the flag is never set and the scratch record
   * stays blank, so nothing more is emitted; but an `END:VEVENT` on the
   * last line takes the `continue` path and reads past the end.
   */
  lemma {:induction false} ScanWithoutBegin(lines: seq<string>, i: nat, evs: seq<Event>)
    requires i < |lines|
    requires forall k :: i <= k < |lines| ==> !StartsWith(lines[k], BeginEvent)
    ensures Scan(lines, i, ScanState(false, Blank, evs))
         == if StartsWith(lines[|lines| - 1], EndEvent) then Err(ReadPastEnd) else Ok(evs)
    decreases |lines| - i
  {
    var st := ScanState(false, Blank, evs);
    if StartsWith(lines[i], EndEvent) {
      assert Step(lines[i], st) == Skip(st);
    } else {
      assert Step(lines[i], st) == Advance(st);
    }
    if i + 1 < |lines| {
      ScanWithoutBegin(lines, i + 1, evs);
    }
  }

  /** No line of `lines` starts with `prefix`. */
  predicate NoneStartsWith(lines: seq<string>, prefix: string)
  {
    forall k :: 0 <= k < |lines| ==> !StartsWith(lines[k], prefix)
  }

  lemma ParseWithoutBegin(calendarData: string)
    requires NoneStartsWith(Split(calendarData, '\n'), BeginEvent)
    ensures var lines := Split(calendarData, '\n');
      Parse(calendarData) == if StartsWith(lines[|lines| - 1], EndEvent) then Err(ReadPastEnd) else Ok([])
  {
    ScanWithoutBegin(Split(calendarData, '\n'), 0, []);
  }

  /** The last line decides how the scan ends: a `continue` there throws. */
  lemma LastLine(lines: seq<string>, st: ScanState)
    requires |lines| >= 1
    ensures Scan(lines, |lines| - 1, st) == match Step(lines[|lines| - 1], st)
      case Throw(e) => Err(e)
      case Skip(_) => Err(ReadPastEnd)
      case Advance(n) => Ok(n.events)
  {
  }
}

/**
 * Small feeds and what the scanner makes of them, proved step by step:
 * one block as intended, and the ways the code keeps or drops values
 * that are not DATE-TIMEs.
 * Dates are symbolic: `dt` stands for a DATE-TIME value such as
 * `20240101T100000`, `d` for a DATE value such as `20240101`.
 */
module ParserExamples {
  import opened Wrappers
  import opened Text
  import opened Parser
  import opened ParserFacts

  /** A property value this scanner accepts. */
  predicate PlainDateTime(v: string)
  {
    ':' !in v && '\r' !in v && !Malformed(v)
  }

  /** A non-empty value without `T`, which this scanner rejects. */
  predicate PlainDate(v: string)
  {
    v != "" && ':' !in v && '\r' !in v && 'T' !in v
  }

  lemma StartLine(v: string)
    requires ':' !in v && '\r' !in v
    ensures var line := "DTSTART:" + v;
      !StartsWith(line, BeginEvent) && StartsWith(line, StartKey) && !StartsWith(line, EndKey)
      && !StartsWith(line, EndEvent) && ReadValue(line) == Some(v)
  {
    var line := "DTSTART:" + v;
    assert line == "DTSTART" + ":" + v;
    ValueToEnd("DTSTART", v);
    assert line[0] == 'D' && line[2] == 'S';
    assert line[..7] == StartKey;
  }

  lemma EndLine(v: string)
    requires ':' !in v && '\r' !in v
    ensures var line := "DTEND:" + v;
      !StartsWith(line, BeginEvent) && !StartsWith(line, StartKey) && StartsWith(line, EndKey)
      && !StartsWith(line, EndEvent) && ReadValue(line) == Some(v)
  {
    var line := "DTEND:" + v;
    assert line == "DTEND" + ":" + v;
    ValueToEnd("DTEND", v);
    assert line[0] == 'D' && line[2] == 'E';
    assert line[..5] == EndKey;
  }

  lemma MarkerLines()
    ensures StartsWith(BeginEvent, BeginEvent) && !StartsWith(BeginEvent, StartKey)
      && !StartsWith(BeginEvent, EndKey) && !StartsWith(BeginEvent, EndEvent)
    ensures StartsWith(EndEvent, EndEvent) && !StartsWith(EndEvent, BeginEvent)
      && !StartsWith(EndEvent, StartKey) && !StartsWith(EndEvent, EndKey)
    ensures !StartsWith("", BeginEvent) && !StartsWith("", StartKey)
      && !StartsWith("", EndKey) && !StartsWith("", EndEvent)
  {
    assert BeginEvent[0] == 'B' && EndEvent[0] == 'E';
  }

  /** One complete block yields one record with the block's dates. */
  lemma SingleBlock(dt1: string, dt2: string)
    requires PlainDateTime(dt1) && PlainDateTime(dt2)
    ensures ParseLines([BeginEvent, "DTSTART:" + dt1, "DTEND:" + dt2, EndEvent])
         == Ok([Event(FlightBooked, dt1, dt2)])
  {
    var lines := [BeginEvent, "DTSTART:" + dt1, "DTEND:" + dt2, EndEvent];
    MarkerLines();
    StartLine(dt1);
    EndLine(dt2);
    var s1 := ScanState(true, Event(FlightBooked, "", ""), []);
    var s2 := ScanState(true, Event(FlightBooked, dt1, ""), []);
    var s3 := ScanState(true, Event(FlightBooked, dt1, dt2), []);
    assert Step(lines[0], Initial) == Advance(s1);
    assert Step(lines[1], s1) == Advance(s2);
    assert Step(lines[2], s2) == Advance(s3);
    assert Step(lines[3], s3) == Advance(ScanState(false, Blank, [Event(FlightBooked, dt1, dt2)]));
    assert Scan(lines, 0, Initial) == Scan(lines, 1, s1);
    assert Scan(lines, 1, s1) == Scan(lines, 2, s2);
    assert Scan(lines, 2, s2) == Scan(lines, 3, s3);
  }

  /**
   * A date-only DTSTART that comes before the block's DTEND, with no stale
   * end date left over, drops the block when a line follows it; when the
   * `END:VEVENT` is the last line, the drop's `continue` reads past the end.
   */
  lemma DateOnlyStart(d: string, dt: string)
    requires PlainDate(d) && PlainDateTime(dt)
    ensures ParseLines([BeginEvent, "DTSTART:" + d, "DTEND:" + dt, EndEvent, ""]) == Ok([])
    ensures ParseLines([BeginEvent, "DTSTART:" + d, "DTEND:" + dt, EndEvent]) == Err(ReadPastEnd)
  {
    var lines := [BeginEvent, "DTSTART:" + d, "DTEND:" + dt, EndEvent, ""];
    var short := [BeginEvent, "DTSTART:" + d, "DTEND:" + dt, EndEvent];
    MarkerLines();
    StartLine(d);
    EndLine(dt);
    DateTimeAccepted(d, "");
    var s1 := ScanState(true, Event(FlightBooked, "", ""), []);
    var s2 := ScanState(false, Event(FlightBooked, d, ""), []);
    assert Step(lines[0], Initial) == Advance(s1);
    assert Step(lines[1], s1) == Skip(s2);
    assert Step(lines[2], s2) == Advance(s2);
    assert Step(lines[3], s2) == Skip(s2);
    assert Step(lines[4], s2) == Advance(s2);
    assert Scan(lines, 0, Initial) == Scan(lines, 1, s1);
    assert Scan(lines, 1, s1) == Scan(lines, 2, s2);
    assert Scan(lines, 2, s2) == Scan(lines, 3, s2);
    assert Scan(lines, 3, s2) == Scan(lines, 4, s2);
    assert Scan(short, 0, Initial) == Scan(short, 1, s1);
    assert Scan(short, 1, s1) == Scan(short, 2, s2);
    assert Scan(short, 2, s2) == Scan(short, 3, s2);
  }

  /**
   * A valid DTSTART followed by a malformed DTEND is still emitted: the
   * malformed value is stored and `END:VEVENT` is still looked for with the flag off.
   */
  lemma MalformedEndEmitted(dt: string, d: string)
    requires PlainDateTime(dt) && PlainDate(d)
    ensures ParseLines([BeginEvent, "DTSTART:" + dt, "DTEND:" + d, EndEvent])
         == Ok([Event(FlightBooked, dt, d)])
  {
    var lines := [BeginEvent, "DTSTART:" + dt, "DTEND:" + d, EndEvent];
    MarkerLines();
    StartLine(dt);
    EndLine(d);
    DateTimeAccepted(d, "");
    var s1 := ScanState(true, Event(FlightBooked, "", ""), []);
    var s2 := ScanState(true, Event(FlightBooked, dt, ""), []);
    var s3 := ScanState(false, Event(FlightBooked, dt, d), []);
    assert Step(lines[0], Initial) == Advance(s1);
    assert Step(lines[1], s1) == Advance(s2);
    assert Step(lines[2], s2) == Skip(s3);
    assert Step(lines[3], s3) == Advance(ScanState(false, Blank, [Event(FlightBooked, dt, d)]));
    assert Scan(lines, 0, Initial) == Scan(lines, 1, s1);
    assert Scan(lines, 1, s1) == Scan(lines, 2, s2);
    assert Scan(lines, 2, s2) == Scan(lines, 3, s3);
  }

  /**
   * A dropped block leaves its fields in the scratch record, and the next
   * block inherits them: its own DTEND and the previous block's DTSTART
   * make one record.
   */
  lemma StaleStartCarried(d: string, dt: string)
    requires PlainDate(d) && PlainDateTime(dt)
    ensures ParseLines([BeginEvent, "DTSTART:" + d, EndEvent, BeginEvent, "DTEND:" + dt, EndEvent, ""])
         == Ok([Event(FlightBooked, d, dt)])
  {
    var lines := [BeginEvent, "DTSTART:" + d, EndEvent, BeginEvent, "DTEND:" + dt, EndEvent, ""];
    MarkerLines();
    StartLine(d);
    EndLine(dt);
    DateTimeAccepted(d, "");
    var s1 := ScanState(true, Event(FlightBooked, "", ""), []);
    var s2 := ScanState(false, Event(FlightBooked, d, ""), []);
    var s3 := ScanState(true, Event(FlightBooked, d, ""), []);
    var s4 := ScanState(true, Event(FlightBooked, d, dt), []);
    var s5 := ScanState(false, Blank, [Event(FlightBooked, d, dt)]);
    assert Step(lines[0], Initial) == Advance(s1);
    assert Step(lines[1], s1) == Skip(s2);
    assert Step(lines[2], s2) == Skip(s2);
    assert Step(lines[3], s2) == Advance(s3);
    assert Step(lines[4], s3) == Advance(s4);
    assert Step(lines[5], s4) == Advance(s5);
    assert Step(lines[6], s5) == Advance(s5);
    assert Scan(lines, 0, Initial) == Scan(lines, 1, s1);
    assert Scan(lines, 1, s1) == Scan(lines, 2, s2);
    assert Scan(lines, 2, s2) == Scan(lines, 3, s2);
    assert Scan(lines, 3, s2) == Scan(lines, 4, s3);
    assert Scan(lines, 4, s3) == Scan(lines, 5, s4);
    assert Scan(lines, 5, s4) == Scan(lines, 6, s5);
  }

  /** A block without DTEND is dropped, or throws when it ends the feed. */
  lemma MissingEnd(dt: string)
    requires PlainDateTime(dt)
    ensures ParseLines([BeginEvent, "DTSTART:" + dt, EndEvent, ""]) == Ok([])
    ensures ParseLines([BeginEvent, "DTSTART:" + dt, EndEvent]) == Err(ReadPastEnd)
  {
    var lines := [BeginEvent, "DTSTART:" + dt, EndEvent, ""];
    var short := [BeginEvent, "DTSTART:" + dt, EndEvent];
    MarkerLines();
    StartLine(dt);
    var s1 := ScanState(true, Event(FlightBooked, "", ""), []);
    var s2 := ScanState(true, Event(FlightBooked, dt, ""), []);
    var s3 := s2.(reading := false);
    assert Step(lines[0], Initial) == Advance(s1);
    assert Step(lines[1], s1) == Advance(s2);
    assert Step(lines[2], s2) == Skip(s3);
    assert Step(lines[3], s3) == Advance(s3);
    assert Scan(lines, 0, Initial) == Scan(lines, 1, s1);
    assert Scan(lines, 1, s1) == Scan(lines, 2, s2);
    assert Scan(lines, 2, s2) == Scan(lines, 3, s3);
    assert Scan(short, 0, Initial) == Scan(short, 1, s1);
    assert Scan(short, 1, s1) == Scan(short, 2, s2);
    assert Scan(short, 2, s2) == Scan(short, 3, s3);
  }

  /**
   * A date-only DTSTART after a valid DTEND is still emitted: the DTEND is
   * stored first, and `END:VEVENT` is still looked for with the flag off.
   */
  lemma MalformedStartAfterEndEmitted(dt: string, d: string)
    requires PlainDateTime(dt) && PlainDate(d)
    ensures ParseLines([BeginEvent, "DTEND:" + dt, "DTSTART:" + d, EndEvent])
         == Ok([Event(FlightBooked, d, dt)])
  {
    var lines := [BeginEvent, "DTEND:" + dt, "DTSTART:" + d, EndEvent];
    MarkerLines();
    StartLine(d);
    EndLine(dt);
    DateTimeAccepted(d, "");
    var s1 := ScanState(true, Event(FlightBooked, "", ""), []);
    var s2 := ScanState(true, Event(FlightBooked, "", dt), []);
    var s3 := ScanState(false, Event(FlightBooked, d, dt), []);
    assert Step(lines[0], Initial) == Advance(s1);
    assert Step(lines[1], s1) == Advance(s2);
    assert Step(lines[2], s2) == Skip(s3);
    assert Step(lines[3], s3) == Advance(ScanState(false, Blank, [Event(FlightBooked, d, dt)]));
    assert Scan(lines, 0, Initial) == Scan(lines, 1, s1);
    assert Scan(lines, 1, s1) == Scan(lines, 2, s2);
    assert Scan(lines, 2, s2) == Scan(lines, 3, s3);
  }

  /**
   * Two dropped values from different blocks make one record: a dropped
   * block's date-only DTEND stays in the scratch record, and the next
   * block's date-only DTSTART completes it.
   */
  lemma DroppedValuesCombined(d1: string, d2: string)
    requires PlainDate(d1) && PlainDate(d2)
    ensures ParseLines([BeginEvent, "DTEND:" + d2, EndEvent, BeginEvent, "DTSTART:" + d1, EndEvent, ""])
         == Ok([Event(FlightBooked, d1, d2)])
  {
    var lines := [BeginEvent, "DTEND:" + d2, EndEvent, BeginEvent, "DTSTART:" + d1, EndEvent, ""];
    MarkerLines();
    StartLine(d1);
    EndLine(d2);
    DateTimeAccepted(d1, "");
    DateTimeAccepted(d2, "");
    var s1 := ScanState(true, Event(FlightBooked, "", ""), []);
    var s2 := ScanState(false, Event(FlightBooked, "", d2), []);
    var s3 := ScanState(true, Event(FlightBooked, "", d2), []);
    var s4 := ScanState(false, Event(FlightBooked, d1, d2), []);
    var s5 := ScanState(false, Blank, [Event(FlightBooked, d1, d2)]);
    assert Step(lines[0], Initial) == Advance(s1);
    assert Step(lines[1], s1) == Skip(s2);
    assert Step(lines[2], s2) == Skip(s2);
    assert Step(lines[3], s2) == Advance(s3);
    assert Step(lines[4], s3) == Skip(s4);
    assert Step(lines[5], s4) == Advance(s5);
    assert Step(lines[6], s5) == Advance(s5);
    assert Scan(lines, 0, Initial) == Scan(lines, 1, s1);
    assert Scan(lines, 1, s1) == Scan(lines, 2, s2);
    assert Scan(lines, 2, s2) == Scan(lines, 3, s2);
    assert Scan(lines, 3, s2) == Scan(lines, 4, s3);
    assert Scan(lines, 4, s3) == Scan(lines, 5, s4);
    assert Scan(lines, 5, s4) == Scan(lines, 6, s5);
  }
}
