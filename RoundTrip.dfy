/**
 * The scanner reads back what the writer writes: a document produced for
 * records titled `Flight Booked` whose dates are plain DATE-TIME values
 * parses to exactly those records, in order. Splitting the CRLF-terminated
 * document on `\n` leaves each content line with a trailing `\r`, which the
 * scanner's `replace('\r', '')` removes from the values.
 */
module RoundTrip {
  import opened Wrappers
  import opened Text
  import opened Parser
  import opened ParserFacts
  import opened ParserExamples
  import opened Generator
  import opened GeneratorFacts

  /** A record the writer emits in a form the scanner takes back unchanged. */
  predicate Regenerable(e: Event)
  {
    e.title == FlightBooked
    && PlainDateTime(e.start) && '\n' !in e.start
    && PlainDateTime(e.end) && '\n' !in e.end
  }

  /** The content lines as `split('\n')` leaves them: each ends in `\r`. */
  function CrLines(lines: seq<string>): seq<string>
  {
    seq(|lines|, k requires 0 <= k < |lines| => lines[k] + "\r")
  }

  predicate NoNewline(lines: seq<string>)
  {
    forall k :: 0 <= k < |lines| ==> '\n' !in lines[k]
  }

  /** Rendering from the front: the first line, CRLF, then the rest. */
  lemma RenderCons(first: string, rest: seq<string>)
    ensures Render([first] + rest) == first + Crlf + Render(rest)
  {
    RenderConcat([first], rest);
    RenderSnoc([], first);
    assert [] + [first] == [first];
  }

  /** CRLF is `\r` then the `\n` that `split` cuts at. */
  lemma CutAtCrlf(line: string, more: string, tail: string)
    ensures line + Crlf + more + tail == (line + "\r") + ['\n'] + (more + tail)
  {
  }

  lemma CrLinesCons(first: string, rest: seq<string>)
    ensures CrLines([first] + rest) == [first + "\r"] + CrLines(rest)
  {
  }

  /** One content line more in front: its piece comes first. */
  lemma SplitRenderCons(first: string, rest: seq<string>, tail: string)
    requires '\n' !in first
    requires Split(Render(rest) + tail, '\n') == CrLines(rest) + [tail]
    ensures Split(Render([first] + rest) + tail, '\n') == CrLines([first] + rest) + [tail]
  {
    var head, more := first + "\r", Render(rest) + tail;
    RenderCut(first, rest, tail);
    assert '\n' !in head;
    SplitAtFirst(head, '\n', more);
    CrLinesCons(first, rest);
    assert [head] + (CrLines(rest) + [tail]) == ([head] + CrLines(rest)) + [tail];
  }

  /** The `\n` of the first line's CRLF, where `split` cuts. */
  lemma RenderCut(first: string, rest: seq<string>, tail: string)
    ensures Render([first] + rest) + tail == (first + "\r") + ['\n'] + (Render(rest) + tail)
  {
    RenderCons(first, rest);
    CutAtCrlf(first, Render(rest), tail);
  }

  /** Splitting rendered content lines (and what follows them) on `\n`. */
  lemma {:induction false} SplitRender(lines: seq<string>, tail: string)
    requires NoNewline(lines) && '\n' !in tail
    ensures Split(Render(lines) + tail, '\n') == CrLines(lines) + [tail]
    decreases |lines|
  {
    if lines == [] {
      assert Render(lines) + tail == tail;
      SplitFree(tail, '\n');
    } else {
      assert NoNewline(lines[1..]);
      SplitRender(lines[1..], tail);
      SplitRenderCons(lines[0], lines[1..], tail);
      assert [lines[0]] + lines[1..] == lines;
    }
  }

  // ---------------------------------------------------------------------
  // What the scanner sees in each line
  // ---------------------------------------------------------------------

  /** Block line `j` as `split('\n')` leaves it. */
  function CrBlockLine(e: Event, index: nat, clock: ClockReading, j: nat): string
    requires j < 12
  {
    BlockLines(e, index, clock)[j] + "\r"
  }

  /** Only the DTSTART line starts with `DTSTART`. */
  lemma StartKeyLine(e: Event, index: nat, clock: ClockReading, j: nat)
    requires j < 12
    ensures StartsWith(CrBlockLine(e, index, clock, j), StartKey) <==> j == 2
  {
    var line := CrBlockLine(e, index, clock, j);
    if j == 2 {
      assert line == StartKey + (":" + e.start + "\r");
      Extends(StartKey, ":" + e.start + "\r");
    } else if j == 3 {
      Differs(line, StartKey, 2);
    } else if j == 4 {
      Differs(line, StartKey, 5);
    } else if j == 10 {
      Differs(line, StartKey, 1);
    } else {
      Differs(line, StartKey, 0);
    }
  }

  /** Only the DTEND line starts with `DTEND`. */
  lemma EndKeyLine(e: Event, index: nat, clock: ClockReading, j: nat)
    requires j < 12
    ensures StartsWith(CrBlockLine(e, index, clock, j), EndKey) <==> j == 3
  {
    var line := CrBlockLine(e, index, clock, j);
    if j == 3 {
      assert line == EndKey + (":" + e.end + "\r");
      Extends(EndKey, ":" + e.end + "\r");
    } else if j == 2 || j == 4 {
      Differs(line, EndKey, 2);
    } else if j == 10 {
      Differs(line, EndKey, 1);
    } else {
      Differs(line, EndKey, 0);
    }
  }

  /** Only line 2 of a block starts with `DTSTART`, and only line 3 with `DTEND`. */
  lemma BlockLineKinds(e: Event, index: nat, clock: ClockReading, j: nat)
    requires j < 12
    ensures var line := BlockLines(e, index, clock)[j] + "\r";
      (StartsWith(line, StartKey) <==> j == 2) && (StartsWith(line, EndKey) <==> j == 3)
  {
    StartKeyLine(e, index, clock, j);
    EndKeyLine(e, index, clock, j);
  }

  /** The value the scanner reads from a property line it was written. */
  lemma FieldValue(key: string, v: string)
    requires ':' !in key && ':' !in v && '\r' !in v
    ensures ReadValue(key + ":" + (v + "\r")) == Some(v)
  {
    var cr := v + "\r";
    assert ':' !in cr;
    ValueToEnd(key, cr);
    assert cr == v + ['\r'] + [];
    ReplaceFirstAt(v, '\r', []);
    assert v + [] == v;
  }

  /** The calendar's fixed lines have no line feed. */
  lemma FrameNoNewline()
    ensures NoNewline(HeaderLines) && '\n' !in CalendarEnd
  {
    assert '\n' !in CalendarBegin && '\n' !in Version && '\n' !in ProdId;
    assert '\n' !in CalScale && '\n' !in PublishMethod;
  }

  /** The block's fixed lines have no line feed. */
  lemma FixedNoNewline()
    ensures '\n' !in BeginEvent && '\n' !in EndEvent
    ensures '\n' !in Confirmed && '\n' !in Opaque
    ensures '\n' !in BusyStatusOof && '\n' !in IntendedBusy
  {
  }

  /** The property names and the fixed parts of values have no line feed. */
  lemma NamesNoNewline()
    ensures '\n' !in "UID:" && '\n' !in "DTSTART:" && '\n' !in "DTEND:" && '\n' !in "DTSTAMP:"
    ensures '\n' !in "SUMMARY:" && '\n' !in "DESCRIPTION:" && '\n' !in FlightBooked
    ensures '\n' !in "-" && '\n' !in "@calendar-cron-job" && '\n' !in "T" && '\n' !in "Z"
  {
  }

  lemma BlockNoNewline(e: Event, index: nat, clock: ClockReading)
    requires Regenerable(e)
    ensures NoNewline(BlockLines(e, index, clock))
  {
    var d := clock.now;
    FixedNoNewline();
    NamesNoNewline();
    DigitsFree(NatToString(clock.millis));
    DigitsFree(NatToString(index));
    var uid := Uid(clock.millis, index);
    assert '\n' !in uid;
    TimestampIsUtcDateTime(d);
    DigitsFree(Pad(d.year, 4)); DigitsFree(Pad(d.month, 2));
    DigitsFree(Pad(d.day, 2)); DigitsFree(Pad(d.hour, 2));
    DigitsFree(Pad(d.minute, 2)); DigitsFree(Pad(d.second, 2));
    var stamp := Timestamp(d);
    assert '\n' !in stamp;
    var bl := BlockLines(e, index, clock);
    assert bl == [BeginEvent, "UID:" + uid, "DTSTART:" + e.start, "DTEND:" + e.end,
                  "DTSTAMP:" + stamp, "SUMMARY:" + e.title, Confirmed, Opaque,
                  BusyStatusOof, IntendedBusy, "DESCRIPTION:" + e.title, EndEvent];
  }

  lemma NoNewlineConcat(a: seq<string>, b: seq<string>)
    requires NoNewline(a) && NoNewline(b)
    ensures NoNewline(a + b)
  {
  }

  lemma {:induction false} BlocksNoNewline(events: seq<Event>, clocks: seq<ClockReading>, n: nat)
    requires n <= |events| == |clocks|
    requires forall k :: 0 <= k < |events| ==> Regenerable(events[k])
    ensures NoNewline(Blocks(events, clocks, n))
  {
    if n > 0 {
      BlocksNoNewline(events, clocks, n - 1);
      BlockNoNewline(events[n - 1], n - 1, clocks[n - 1]);
      NoNewlineConcat(Blocks(events, clocks, n - 1), BlockLines(events[n - 1], n - 1, clocks[n - 1]));
    }
  }

  lemma DocNoNewline(events: seq<Event>, clocks: seq<ClockReading>)
    requires |events| == |clocks|
    requires forall k :: 0 <= k < |events| ==> Regenerable(events[k])
    ensures NoNewline(DocLines(events, clocks))
  {
    var blocks := Blocks(events, clocks, |events|);
    FrameNoNewline();
    BlocksNoNewline(events, clocks, |events|);
    NoNewlineConcat(HeaderLines, blocks);
    NoNewlineConcat(HeaderLines + blocks, [CalendarEnd]);
  }

  // ---------------------------------------------------------------------
  // Running the scanner over a generated document
  // ---------------------------------------------------------------------

  /** One pass of the loop that reaches the bound check with lines left. */
  lemma ScanAdvance(lines: seq<string>, i: nat, st: ScanState, next: ScanState)
    requires i + 1 < |lines| && Step(lines[i], st) == Advance(next)
    ensures Scan(lines, i, st) == Scan(lines, i + 1, next)
  {
  }

  /** Lines outside any block that neither open nor close one change nothing. */
  lemma {:induction false} OutsideRun(lines: seq<string>, a: nat, b: nat, st: ScanState)
    requires a <= b < |lines| && !st.reading
    requires forall p :: a <= p < b ==>
      !StartsWith(lines[p], BeginEvent) && !StartsWith(lines[p], EndEvent)
    ensures Scan(lines, a, st) == Scan(lines, b, st)
    decreases b - a
  {
    if a < b {
      ScanAdvance(lines, a, st, st);
      OutsideRun(lines, a + 1, b, st);
    }
  }

  /** Lines inside a block that carry no date and no end marker change nothing. */
  lemma {:induction false} InsideRun(lines: seq<string>, a: nat, b: nat, st: ScanState)
    requires a <= b < |lines| && st.reading && st.scratch.title == FlightBooked
    requires forall p :: a <= p < b ==>
      !StartsWith(lines[p], StartKey) && !StartsWith(lines[p], EndKey) && !StartsWith(lines[p], EndEvent)
    ensures Scan(lines, a, st) == Scan(lines, b, st)
    decreases b - a
  {
    if a < b {
      ScanAdvance(lines, a, st, st);
      InsideRun(lines, a + 1, b, st);
    }
  }

  /** The `BEGIN:VEVENT` line opens a block with a fresh record. */
  lemma EnterBlock(lines: seq<string>, i: nat, done: seq<Event>)
    requires i + 1 < |lines| && StartsWith(lines[i], BeginEvent)
    requires !StartsWith(lines[i], StartKey) && !StartsWith(lines[i], EndKey) && !StartsWith(lines[i], EndEvent)
    ensures Scan(lines, i, ScanState(false, Blank, done))
         == Scan(lines, i + 1, ScanState(true, Event(FlightBooked, "", ""), done))
  {
    ScanAdvance(lines, i, ScanState(false, Blank, done), ScanState(true, Event(FlightBooked, "", ""), done));
  }

  /** The `DTSTART` and `DTEND` lines fill in the record's dates. */
  lemma ReadDates(lines: seq<string>, i: nat, e: Event, done: seq<Event>)
    requires i + 2 < |lines| && e.title == FlightBooked && !Malformed(e.start) && !Malformed(e.end)
    requires StartsWith(lines[i], StartKey) && !StartsWith(lines[i], EndKey) && !StartsWith(lines[i], EndEvent)
    requires ReadValue(lines[i]) == Some(e.start)
    requires !StartsWith(lines[i + 1], StartKey) && StartsWith(lines[i + 1], EndKey)
    requires !StartsWith(lines[i + 1], EndEvent) && ReadValue(lines[i + 1]) == Some(e.end)
    ensures Scan(lines, i, ScanState(true, Event(FlightBooked, "", ""), done))
         == Scan(lines, i + 2, ScanState(true, e, done))
  {
    var started := ScanState(true, Event(FlightBooked, e.start, ""), done);
    ScanAdvance(lines, i, ScanState(true, Event(FlightBooked, "", ""), done), started);
    ScanAdvance(lines, i + 1, started, ScanState(true, e, done));
  }

  /** The `END:VEVENT` line emits the record and closes the block. */
  lemma LeaveBlock(lines: seq<string>, i: nat, e: Event, done: seq<Event>)
    requires i + 1 < |lines| && e.title == FlightBooked && !Malformed(e.start) && !Malformed(e.end)
    requires !StartsWith(lines[i], StartKey) && !StartsWith(lines[i], EndKey) && StartsWith(lines[i], EndEvent)
    ensures Scan(lines, i, ScanState(true, e, done))
         == Scan(lines, i + 1, ScanState(false, Blank, done + [e]))
  {
    assert e.start != [] && e.end != [];
    ScanAdvance(lines, i, ScanState(true, e, done), ScanState(false, Blank, done + [e]));
  }

  /** The first two lines of a written block open it. */
  lemma BlockOpen(lines: seq<string>, i: nat, e: Event, index: nat, clock: ClockReading, done: seq<Event>)
    requires i + 12 < |lines|
    requires forall j :: 0 <= j < 12 ==> lines[i + j] == BlockLines(e, index, clock)[j] + "\r"
    ensures Scan(lines, i, ScanState(false, Blank, done))
         == Scan(lines, i + 2, ScanState(true, Event(FlightBooked, "", ""), done))
  {
    BlockMarkers(e, index, clock, 0);
    EnterBlock(lines, i, done);
    BlockLineKinds(e, index, clock, 1);
    BlockMarkers(e, index, clock, 1);
    InsideRun(lines, i + 1, i + 2, ScanState(true, Event(FlightBooked, "", ""), done));
  }

  /** The scanner reads the record's dates back from its written DTSTART and DTEND lines. */
  lemma WrittenDates(e: Event, index: nat, clock: ClockReading)
    requires Regenerable(e)
    ensures ReadValue(BlockLines(e, index, clock)[2] + "\r") == Some(e.start)
    ensures ReadValue(BlockLines(e, index, clock)[3] + "\r") == Some(e.end)
  {
    assert BlockLines(e, index, clock)[2] + "\r" == StartKey + ":" + (e.start + "\r");
    FieldValue(StartKey, e.start);
    assert BlockLines(e, index, clock)[3] + "\r" == EndKey + ":" + (e.end + "\r");
    FieldValue(EndKey, e.end);
  }

  /** The next two lines of a written block give the record its dates. */
  lemma BlockDates(lines: seq<string>, i: nat, e: Event, index: nat, clock: ClockReading, done: seq<Event>)
    requires i + 12 < |lines| && Regenerable(e)
    requires forall j :: 0 <= j < 12 ==> lines[i + j] == BlockLines(e, index, clock)[j] + "\r"
    ensures Scan(lines, i + 2, ScanState(true, Event(FlightBooked, "", ""), done))
         == Scan(lines, i + 4, ScanState(true, e, done))
  {
    BlockLineKinds(e, index, clock, 2);
    BlockLineKinds(e, index, clock, 3);
    BlockMarkers(e, index, clock, 2);
    BlockMarkers(e, index, clock, 3);
    WrittenDates(e, index, clock);
    ReadDates(lines, i + 2, e, done);
  }

  /** The last eight lines of a written block: the record is emitted. */
  lemma BlockTail(lines: seq<string>, i: nat, e: Event, index: nat, clock: ClockReading, done: seq<Event>)
    requires i + 12 < |lines| && Regenerable(e)
    requires forall j :: 0 <= j < 12 ==> lines[i + j] == BlockLines(e, index, clock)[j] + "\r"
    ensures Scan(lines, i + 4, ScanState(true, e, done))
         == Scan(lines, i + 12, ScanState(false, Blank, done + [e]))
  {
    forall p | i + 4 <= p < i + 11
      ensures !StartsWith(lines[p], StartKey) && !StartsWith(lines[p], EndKey)
        && !StartsWith(lines[p], EndEvent)
    {
      BlockLineKinds(e, index, clock, p - i);
      BlockMarkers(e, index, clock, p - i);
    }
    InsideRun(lines, i + 4, i + 11, ScanState(true, e, done));
    BlockLineKinds(e, index, clock, 11);
    BlockMarkers(e, index, clock, 11);
    LeaveBlock(lines, i + 11, e, done);
  }

  /** The footer and the empty piece after the last CRLF end the scan. */
  lemma FooterScan(lines: seq<string>, i: nat, done: seq<Event>)
    requires |lines| == i + 2 && lines[i] == CalendarEnd + "\r" && lines[i + 1] == ""
    ensures Scan(lines, i, ScanState(false, Blank, done)) == Ok(done)
  {
    var st := ScanState(false, Blank, done);
    FrameMarkers(0);
    ScanAdvance(lines, i, st, st);
    MarkerLines();
    assert Step(lines[i + 1], st) == Advance(st);
  }

  /** The pieces of the split document after the header, as the scanner sees them. */
  predicate Carries(lines: seq<string>, events: seq<Event>, clocks: seq<ClockReading>)
    requires |events| == |clocks|
  {
    var n := |events|;
    |lines| == 12 * n + 7
    && lines[5 + 12 * n] == CalendarEnd + "\r" && lines[6 + 12 * n] == ""
    && forall k, j :: 0 <= k < n && 0 <= j < 12 ==>
         lines[5 + 12 * k + j] == BlockLines(events[k], k, clocks[k])[j] + "\r"
  }

  lemma GeneratedLines(events: seq<Event>, clocks: seq<ClockReading>)
    requires |events| == |clocks|
    ensures Carries(CrLines(DocLines(events, clocks)) + [""], events, clocks)
  {
    var doc := DocLines(events, clocks);
    var lines := CrLines(doc) + [""];
    DocLinesLayout(events, clocks);
    forall k, j | 0 <= k < |events| && 0 <= j < 12
      ensures lines[5 + 12 * k + j] == BlockLines(events[k], k, clocks[k])[j] + "\r"
    {
      assert lines[5 + 12 * k + j] == doc[5 + 12 * k + j] + "\r";
    }
  }

  /** A whole written block: the record is added and the block is closed. */
  lemma WrittenBlock(lines: seq<string>, i: nat, e: Event, index: nat, clock: ClockReading, done: seq<Event>)
    requires i + 12 < |lines| && Regenerable(e)
    requires forall j :: 0 <= j < 12 ==> lines[i + j] == BlockLines(e, index, clock)[j] + "\r"
    ensures Scan(lines, i, ScanState(false, Blank, done))
         == Scan(lines, i + 12, ScanState(false, Blank, done + [e]))
  {
    BlockOpen(lines, i, e, index, clock, done);
    BlockDates(lines, i, e, index, clock, done);
    BlockTail(lines, i, e, index, clock, done);
  }

  /** Block `k` of a split document, as `WrittenBlock` needs it. */
  lemma CarriedBlock(lines: seq<string>, events: seq<Event>, clocks: seq<ClockReading>, k: nat)
    requires |events| == |clocks| && k < |events| && Carries(lines, events, clocks)
    ensures 5 + 12 * k + 12 < |lines|
    ensures forall j :: 0 <= j < 12 ==>
      lines[5 + 12 * k + j] == BlockLines(events[k], k, clocks[k])[j] + "\r"
  {
  }

  /** From the start of block `k`, the scan yields every record. */
  lemma {:induction false} BlocksScan(events: seq<Event>, clocks: seq<ClockReading>, lines: seq<string>, k: nat)
    requires |events| == |clocks| && k <= |events|
    requires forall m :: 0 <= m < |events| ==> Regenerable(events[m])
    requires Carries(lines, events, clocks)
    ensures Scan(lines, 5 + 12 * k, ScanState(false, Blank, events[..k])) == Ok(events)
    decreases |events| - k
  {
    var i, done := 5 + 12 * k, events[..k];
    if k == |events| {
      FooterScan(lines, i, done);
      assert done == events;
    } else {
      CarriedBlock(lines, events, clocks, k);
      WrittenBlock(lines, i, events[k], k, clocks[k], done);
      assert done + [events[k]] == events[..k + 1];
      assert i + 12 == 5 + 12 * (k + 1);
      BlocksScan(events, clocks, lines, k + 1);
    }
  }

  /** The five header lines leave the scanner where it started. */
  lemma HeaderScan(lines: seq<string>)
    requires |lines| > 5
    requires forall p :: 0 <= p < 5 ==> lines[p] == HeaderLines[p] + "\r"
    ensures Scan(lines, 0, Initial) == Scan(lines, 5, Initial)
  {
    forall p | 0 <= p < 5
      ensures !StartsWith(lines[p], BeginEvent) && !StartsWith(lines[p], EndEvent)
    {
      FrameMarkers(p);
    }
    OutsideRun(lines, 0, 5, Initial);
  }

  /** The document split on `\n`: its content lines with `\r`, then an empty piece. */
  lemma SplitDocument(events: seq<Event>, clocks: seq<ClockReading>)
    requires |events| == |clocks|
    requires forall k :: 0 <= k < |events| ==> Regenerable(events[k])
    ensures Split(Document(events, clocks), '\n') == CrLines(DocLines(events, clocks)) + [""]
  {
    var doc := DocLines(events, clocks);
    DocNoNewline(events, clocks);
    SplitRender(doc, "");
    assert Render(doc) + "" == Document(events, clocks);
  }

  /**
   * `parseCalendarEvents(generateICS(events))` gives back `events`, whatever
   * the clock said, when every record is titled `Flight Booked` and carries
   * plain DATE-TIME values.
   */
  lemma ParseGenerated(events: seq<Event>, clocks: seq<ClockReading>)
    requires |events| == |clocks|
    requires forall k :: 0 <= k < |events| ==> Regenerable(events[k])
    ensures Parse(Document(events, clocks)) == Ok(events)
  {
    var doc := DocLines(events, clocks);
    var lines := CrLines(doc) + [""];
    SplitDocument(events, clocks);
    DocLinesLayout(events, clocks);
    assert forall p :: 0 <= p < 5 ==> lines[p] == doc[..5][p] + "\r";
    HeaderScan(lines);
    GeneratedLines(events, clocks);
    BlocksScan(events, clocks, lines, 0);
    assert ScanState(false, Blank, events[..0]) == Initial;
  }
}
