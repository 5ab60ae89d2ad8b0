/**
 * The document writer of the calendar route (`generateICS`): a VCALENDAR
 * object (section 3.4 of RFC 5545) with a fixed header, one fixed-shape
 * VEVENT component (section 3.6.1) per record and a footer, every content
 * line terminated by CRLF (section 3.1).
 *
 * The wall clock is a parameter: for each record, the instant that
 * `new Date()` gives for DTSTAMP and the milliseconds that `Date.now()`
 * gives for the UID.
 */
module Generator {
  import opened Text
  import opened Parser

  /** The calendar fields of a JavaScript `Date` in UTC. */
  datatype DateTime = DateTime(year: nat, month: nat, day: nat,
                               hour: nat, minute: nat, second: nat, millisecond: nat)

  /**
   * An instant whose `toISOString` has the four-digit-year form; outside
   * years 0000-9999 it switches to a signed six-digit year, which is not
   * modelled.
   */
  type Instant = d: DateTime
    | d.year <= 9999 && 1 <= d.month <= 12 && 1 <= d.day <= 31
      && d.hour < 24 && d.minute < 60 && d.second < 60 && d.millisecond < 1000
    witness DateTime(1970, 1, 1, 0, 0, 0, 0)

  /** What the clock said while one record was written. */
  datatype ClockReading = ClockReading(now: Instant, millis: nat)

  /** `toISOString()`: `YYYY-MM-DDTHH:mm:ss.sssZ`. */
  function ToISOString(d: Instant): string
  {
    Pad(d.year, 4) + "-" + Pad(d.month, 2) + "-" + Pad(d.day, 2) + "T"
    + Pad(d.hour, 2) + ":" + Pad(d.minute, 2) + ":" + Pad(d.second, 2) + "."
    + Pad(d.millisecond, 3) + "Z"
  }

  /** `toISOString().replace(/[-:]/g, '').split('.')[0] + 'Z'`. */
  function Timestamp(d: Instant): string
  {
    Split(StripDashColon(ToISOString(d)), '.')[0] + "Z"
  }

  /** `${Date.now()}-${index}@calendar-cron-job`. */
  function Uid(millis: nat, index: nat): string
  {
    NatToString(millis) + "-" + NatToString(index) + "@calendar-cron-job"
  }

  const CalendarBegin := "BEGIN:VCALENDAR"
  const CalendarEnd := "END:VCALENDAR"

  const Version := "VERSION:2.0"
  const ProdId := "PRODID:-//Calendar Cron Job//EN"
  const CalScale := "CALSCALE:GREGORIAN"
  const PublishMethod := "METHOD:PUBLISH"
  const Confirmed := "STATUS:CONFIRMED"
  const Opaque := "TRANSP:OPAQUE"
  const BusyStatusOof := "X-MICROSOFT-CDO-BUSYSTATUS:OOF"
  const IntendedBusy := "X-MICROSOFT-CDO-INTENDEDSTATUS:BUSY"

  const HeaderLines: seq<string> := [CalendarBegin, Version, ProdId, CalScale, PublishMethod]

  /** The twelve content lines written for record number `index`. */
  function BlockLines(e: Event, index: nat, clock: ClockReading): seq<string>
  {
    [ BeginEvent,
      "UID:" + Uid(clock.millis, index),
      "DTSTART:" + e.start,
      "DTEND:" + e.end,
      "DTSTAMP:" + Timestamp(clock.now),
      "SUMMARY:" + e.title,
      Confirmed,
      Opaque,
      BusyStatusOof,
      IntendedBusy,
      "DESCRIPTION:" + e.title,
      EndEvent ]
  }

  /** The blocks of the first `n` records, in order. */
  function Blocks(events: seq<Event>, clocks: seq<ClockReading>, n: nat): seq<string>
    requires n <= |events| == |clocks|
  {
    if n == 0 then []
    else Blocks(events, clocks, n - 1) + BlockLines(events[n - 1], n - 1, clocks[n - 1])
  }

  /** Every content line of the document, without terminators. */
  function DocLines(events: seq<Event>, clocks: seq<ClockReading>): seq<string>
    requires |events| == |clocks|
  {
    HeaderLines + Blocks(events, clocks, |events|) + [CalendarEnd]
  }

  /** The content-line terminator. */
  const Crlf := "\r\n"

  /** Content lines joined, each followed by CRLF. */
  function Render(lines: seq<string>): string
  {
    if lines == [] then []
    else Render(lines[..|lines| - 1]) + lines[|lines| - 1] + Crlf
  }

  function Document(events: seq<Event>, clocks: seq<ClockReading>): string
    requires |events| == |clocks|
  {
    Render(DocLines(events, clocks))
  }

  /** Appending one content line keeps the accumulator rendered. */
  lemma RenderSnoc(lines: seq<string>, line: string)
    ensures Render(lines + [line]) == Render(lines) + line + Crlf
  {
    assert (lines + [line])[..|lines|] == lines;
  }

  /** The same, for a line written as a property name and a value. */
  lemma RenderSnocField(lines: seq<string>, name: string, value: string)
    ensures Render(lines + [name + value]) == Render(lines) + name + value + Crlf
  {
    RenderSnoc(lines, name + value);
  }

  /** Rendering distributes over concatenation of line lists. */
  lemma {:induction false} RenderConcat(a: seq<string>, b: seq<string>)
    ensures Render(a + b) == Render(a) + Render(b)
    decreases |b|
  {
    if b == [] {
      assert a + b == a;
    } else {
      var b' := b[..|b| - 1];
      RenderConcat(a, b');
      assert (a + b)[..|a + b| - 1] == a + b';
    }
  }

  /**
   * The `forEach` callback: the twelve lines of record number `index`,
   * appended to the accumulator.
   */
  method WriteEvent(ics: string, event: Event, index: nat, clock: ClockReading) returns (out: string)
    ensures out == ics + Render(BlockLines(event, index, clock))
  {
    ghost var written: seq<string> := [];
    var text: string := [];
    ghost var block := BlockLines(event, index, clock);
    var timestamp := Split(StripDashColon(ToISOString(clock.now)), '.')[0] + "Z";
    RenderSnoc(written, BeginEvent);
    text, written := text + BeginEvent + Crlf, written + [BeginEvent];
    RenderSnocField(written, "UID:", Uid(clock.millis, index));
    text, written := text + "UID:" + Uid(clock.millis, index) + Crlf, written + ["UID:" + Uid(clock.millis, index)];
    RenderSnocField(written, "DTSTART:", event.start);
    text, written := text + "DTSTART:" + event.start + Crlf, written + ["DTSTART:" + event.start];
    RenderSnocField(written, "DTEND:", event.end);
    text, written := text + "DTEND:" + event.end + Crlf, written + ["DTEND:" + event.end];
    RenderSnocField(written, "DTSTAMP:", timestamp);
    text, written := text + "DTSTAMP:" + timestamp + Crlf, written + ["DTSTAMP:" + timestamp];
    RenderSnocField(written, "SUMMARY:", event.title);
    text, written := text + "SUMMARY:" + event.title + Crlf, written + ["SUMMARY:" + event.title];
    RenderSnoc(written, Confirmed);
    text, written := text + Confirmed + Crlf, written + [Confirmed];
    RenderSnoc(written, Opaque);
    text, written := text + Opaque + Crlf, written + [Opaque];
    RenderSnoc(written, BusyStatusOof);
    text, written := text + BusyStatusOof + Crlf, written + [BusyStatusOof];
    RenderSnoc(written, IntendedBusy);
    text, written := text + IntendedBusy + Crlf, written + [IntendedBusy];
    RenderSnocField(written, "DESCRIPTION:", event.title);
    text, written := text + "DESCRIPTION:" + event.title + Crlf, written + ["DESCRIPTION:" + event.title];
    RenderSnoc(written, EndEvent);
    text, written := text + EndEvent + Crlf, written + [EndEvent];
    assert written == block;
    out := ics + text;
  }

  /** Five content lines, rendered. */
  lemma RenderFive(l0: string, l1: string, l2: string, l3: string, l4: string)
    ensures Render([l0, l1, l2, l3, l4])
         == l0 + Crlf + l1 + Crlf + l2 + Crlf + l3 + Crlf + l4 + Crlf
  {
    RenderSnoc([], l0);
    assert [] + [l0] == [l0];
    RenderSnoc([l0], l1);
    assert [l0] + [l1] == [l0, l1];
    RenderSnoc([l0, l1], l2);
    assert [l0, l1] + [l2] == [l0, l1, l2];
    RenderSnoc([l0, l1, l2], l3);
    assert [l0, l1, l2] + [l3] == [l0, l1, l2, l3];
    RenderSnoc([l0, l1, l2, l3], l4);
    assert [l0, l1, l2, l3] + [l4] == [l0, l1, l2, l3, l4];
  }

  /** The five header lines as the source writes them. */
  lemma RenderHeader()
    ensures Render(HeaderLines)
         == CalendarBegin + Crlf + Version + Crlf + ProdId + Crlf + CalScale + Crlf + PublishMethod + Crlf
  {
    RenderFive(CalendarBegin, Version, ProdId, CalScale, PublishMethod);
  }

  /** Before any record: the rendered header. */
  lemma DocStart(events: seq<Event>, clocks: seq<ClockReading>)
    requires |events| == |clocks|
    ensures Render(HeaderLines + Blocks(events, clocks, 0))
         == CalendarBegin + Crlf + Version + Crlf + ProdId + Crlf + CalScale + Crlf + PublishMethod + Crlf
  {
    assert HeaderLines + Blocks(events, clocks, 0) == HeaderLines;
    RenderHeader();
  }

  /** Writing record `index` appends its rendered block. */
  lemma DocStep(events: seq<Event>, clocks: seq<ClockReading>, index: nat)
    requires index < |events| == |clocks|
    ensures Render(HeaderLines + Blocks(events, clocks, index + 1))
         == Render(HeaderLines + Blocks(events, clocks, index))
            + Render(BlockLines(events[index], index, clocks[index]))
  {
    var blocks := Blocks(events, clocks, index);
    var block := BlockLines(events[index], index, clocks[index]);
    assert Blocks(events, clocks, index + 1) == blocks + block;
    RenderConcat(HeaderLines + blocks, block);
    assert HeaderLines + (blocks + block) == (HeaderLines + blocks) + block;
  }

  /** After the last record: the footer completes the document. */
  lemma DocEnd(events: seq<Event>, clocks: seq<ClockReading>)
    requires |events| == |clocks|
    ensures Document(events, clocks)
         == Render(HeaderLines + Blocks(events, clocks, |events|)) + CalendarEnd + Crlf
  {
    RenderSnoc(HeaderLines + Blocks(events, clocks, |events|), CalendarEnd);
  }

  /** `generateICS(events)`, writing into the accumulator as the source does. */
  method GenerateICS(events: seq<Event>, clocks: seq<ClockReading>) returns (ics: string)
    requires |clocks| == |events|
    ensures ics == Document(events, clocks)
  {
    ics := CalendarBegin + Crlf;
    ics := ics + Version + Crlf;
    ics := ics + ProdId + Crlf;
    ics := ics + CalScale + Crlf;
    ics := ics + PublishMethod + Crlf;
    DocStart(events, clocks);

    for index := 0 to |events|
      invariant ics == Render(HeaderLines + Blocks(events, clocks, index))
    {
      DocStep(events, clocks, index);
      ics := WriteEvent(ics, events[index], index, clocks[index]);
    }

    DocEnd(events, clocks);
    ics := ics + CalendarEnd + Crlf;
  }
}
