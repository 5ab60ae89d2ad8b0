/**
 * What the calendar writer guarantees about its output: the DTSTAMP value
 * is a UTC DATE-TIME in basic format (section 3.3.5 of RFC 5545, form #2)
 * that reads back to the clock's fields, the UID of a record is unique per
 * position in the list, and the document is a header, one twelve-line block
 * per record in order, and a footer, with `BEGIN:VEVENT` and `END:VEVENT`
 * exactly at the edges of the blocks.
 */
module GeneratorFacts {
  import opened Text
  import opened Parser
  import opened Generator

  // ---------------------------------------------------------------------
  // DTSTAMP
  // ---------------------------------------------------------------------

  /** `YYYYMMDDTHHMMSSZ`: the UTC DATE-TIME of an instant, to the second. */
  function UtcDateTime(d: Instant): string
  {
    Pad(d.year, 4) + Pad(d.month, 2) + Pad(d.day, 2) + "T"
    + Pad(d.hour, 2) + Pad(d.minute, 2) + Pad(d.second, 2) + "Z"
  }

  lemma DigitsFree(s: string)
    requires AllDigits(s)
    ensures '-' !in s && ':' !in s && '.' !in s && 'T' !in s && '\n' !in s
  {
    forall k | 0 <= k < |s|
      ensures s[k] != '-' && s[k] != ':' && s[k] != '.' && s[k] != 'T' && s[k] != '\n'
    {
      assert IsDigit(s[k]);
    }
  }

  /** A `-` or `:` at the end is removed. */
  lemma StripDrop(p: string, c: char)
    requires c == '-' || c == ':'
    ensures StripDashColon(p + [c]) == StripDashColon(p)
  {
    StripConcat(p, [c]);
    assert StripDashColon([c]) == [];
  }

  /** A piece without `-` and `:` at the end is kept. */
  lemma StripKeep(p: string, f: string)
    requires '-' !in f && ':' !in f
    ensures StripDashColon(p + f) == StripDashColon(p) + f
  {
    StripConcat(p, f);
    StripFree(f);
  }

  /**
   * Removing `-` and `:` from the ISO rendering and cutting at the `.` leaves
   * exactly the basic-format date and time: the milliseconds are dropped.
   */
  lemma TimestampIsUtcDateTime(d: Instant)
    ensures Timestamp(d) == UtcDateTime(d)
  {
    var y, mo, da := Pad(d.year, 4), Pad(d.month, 2), Pad(d.day, 2);
    var h, mi, s, ms := Pad(d.hour, 2), Pad(d.minute, 2), Pad(d.second, 2), Pad(d.millisecond, 3);
    DigitsFree(y); DigitsFree(mo); DigitsFree(da);
    DigitsFree(h); DigitsFree(mi); DigitsFree(s); DigitsFree(ms);

    StripFree(y);
    var a1 := y + "-" + mo;
    StripDrop(y, '-');
    StripKeep(y + "-", mo);
    assert StripDashColon(a1) == y + mo;
    var a2 := a1 + "-" + da;
    StripDrop(a1, '-');
    StripKeep(a1 + "-", da);
    assert StripDashColon(a2) == y + mo + da;
    var a3 := a2 + "T";
    StripKeep(a2, "T");
    assert StripDashColon(a3) == y + mo + da + "T";
    var a4 := a3 + h;
    StripKeep(a3, h);
    var b4 := y + mo + da + "T" + h;
    assert StripDashColon(a4) == b4;
    StripDrop(a4, ':');
    StripKeep(a4 + ":", mi);
    var b5 := b4 + mi;
    StripDrop(a4 + ":" + mi, ':');
    StripKeep(a4 + ":" + mi + ":", s);
    var basic := b5 + s;
    var a6 := a4 + ":" + mi + ":" + s;
    assert StripDashColon(a6) == basic;
    StripKeep(a6, ".");
    StripKeep(a6 + ".", ms);
    StripKeep(a6 + "." + ms, "Z");
    assert ToISOString(d) == a6 + "." + ms + "Z";
    assert StripDashColon(ToISOString(d)) == basic + ['.'] + (ms + "Z");

    assert '.' !in basic;
    SplitAtFirst(basic, '.', ms + "Z");
    assert basic + "Z" == UtcDateTime(d);
  }

  /** Three fields written one after the other are cut out again by position. */
  lemma Fields(a: string, b: string, c: string)
    ensures var w := a + b + c;
      w[..|a|] == a && w[|a|..|a| + |b|] == b && w[|a| + |b|..] == c
  {
  }

  /** The basic format reads back to the instant's date and time fields. */
  lemma UtcDateTimeFields(d: Instant)
    ensures var t := UtcDateTime(d);
      |t| == 16 && t[8] == 'T' && t[15] == 'Z'
      && AllDigits(t[..8]) && AllDigits(t[9..15])
      && var date, time := t[..8], t[9..15];
      DecimalValue(date[..4]) == d.year && DecimalValue(date[4..6]) == d.month
      && DecimalValue(date[6..]) == d.day && DecimalValue(time[..2]) == d.hour
      && DecimalValue(time[2..4]) == d.minute && DecimalValue(time[4..]) == d.second
  {
    var y, mo, da := Pad(d.year, 4), Pad(d.month, 2), Pad(d.day, 2);
    var h, mi, s := Pad(d.hour, 2), Pad(d.minute, 2), Pad(d.second, 2);
    var t := UtcDateTime(d);
    assert Pow10(2) == 100 && Pow10(4) == 10000;
    PadValue(d.year, 4); PadValue(d.month, 2); PadValue(d.day, 2);
    PadValue(d.hour, 2); PadValue(d.minute, 2); PadValue(d.second, 2);
    var date := y + mo + da;
    var time := h + mi + s;
    Fields(y, mo, da);
    Fields(h, mi, s);
    assert t == date + "T" + time + "Z";
    assert t[..8] == date;
    assert t[9..15] == time;
  }

  // ---------------------------------------------------------------------
  // UID
  // ---------------------------------------------------------------------

  /** A digit run followed by a non-digit is determined by the whole string. */
  lemma DigitsPrefix(a1: string, r1: string, a2: string, r2: string)
    requires AllDigits(a1) && AllDigits(a2)
    requires |r1| > 0 && |r2| > 0 && !IsDigit(r1[0]) && !IsDigit(r2[0])
    requires a1 + r1 == a2 + r2
    ensures a1 == a2 && r1 == r2
  {
    var w := a1 + r1;
    assert !IsDigit(w[|a1|]) && !IsDigit(w[|a2|]);
    assert forall k :: 0 <= k < |a1| ==> IsDigit(w[k]);
    assert forall k :: 0 <= k < |a2| ==> IsDigit(w[k]);
    assert |a1| == |a2|;
    assert a1 == w[..|a1|] == a2;
    assert r1 == w[|a1|..] == r2;
  }

  /**
   * The UID determines the clock reading and the position it was written
   * with: records at different positions of one list never share a UID.
   */
  lemma UidInjective(m1: nat, i1: nat, m2: nat, i2: nat)
    requires Uid(m1, i1) == Uid(m2, i2)
    ensures m1 == m2 && i1 == i2
  {
    UidParts(m1, i1);
    UidParts(m2, i2);
    var n1, n2 := NatToString(i1), NatToString(i2);
    DigitsPrefix(NatToString(m1), "-" + (n1 + Host), NatToString(m2), "-" + (n2 + Host));
    NatToStringInjective(m1, m2);
    assert ("-" + (n1 + Host))[1..] == n1 + Host;
    assert Host[0] == '@';
    DigitsPrefix(n1, Host, n2, Host);
    NatToStringInjective(i1, i2);
  }

  const Host := "@calendar-cron-job"

  /** A UID is the clock's digits, `-`, the position's digits and the host part. */
  lemma UidParts(m: nat, i: nat)
    ensures Uid(m, i) == NatToString(m) + ("-" + (NatToString(i) + Host))
  {
  }

  // ---------------------------------------------------------------------
  // Document layout
  // ---------------------------------------------------------------------

  /** Block `k` occupies lines `12 * k` to `12 * k + 11` of the blocks. */
  lemma {:induction false} BlocksLayout(events: seq<Event>, clocks: seq<ClockReading>, n: nat)
    requires n <= |events| == |clocks|
    ensures |Blocks(events, clocks, n)| == 12 * n
    ensures forall k, j :: 0 <= k < n && 0 <= j < 12 ==>
      Blocks(events, clocks, n)[12 * k + j] == BlockLines(events[k], k, clocks[k])[j]
  {
    if n > 0 {
      BlocksLayout(events, clocks, n - 1);
      var prev := Blocks(events, clocks, n - 1);
      var last := BlockLines(events[n - 1], n - 1, clocks[n - 1]);
      assert Blocks(events, clocks, n) == prev + last;
      forall k, j | 0 <= k < n && 0 <= j < 12
        ensures Blocks(events, clocks, n)[12 * k + j] == BlockLines(events[k], k, clocks[k])[j]
      {
        if k < n - 1 {
          assert 12 * k + j < 12 * (n - 1);
          assert (prev + last)[12 * k + j] == prev[12 * k + j];
        } else {
          assert (prev + last)[12 * k + j] == last[j];
        }
      }
    }
  }

  /** An element of the middle part of a three-part concatenation. */
  lemma Middle(head: seq<string>, body: seq<string>, foot: seq<string>, q: nat)
    requires |head| <= q < |head| + |body|
    ensures (head + body + foot)[q] == body[q - |head|]
  {
  }

  /** The first and the last part of a three-part concatenation. */
  lemma Ends(head: seq<string>, body: seq<string>, last: string)
    ensures (head + body + [last])[..|head|] == head
    ensures (head + body + [last])[|head| + |body|] == last
  {
  }

  /** Header, the blocks in record order, footer. */
  lemma DocLinesLayout(events: seq<Event>, clocks: seq<ClockReading>)
    requires |events| == |clocks|
    ensures var n, doc := |events|, DocLines(events, clocks);
      |doc| == 12 * n + 6
      && doc[..5] == HeaderLines
      && doc[12 * n + 5] == CalendarEnd
      && forall k, j :: 0 <= k < n && 0 <= j < 12 ==>
           doc[5 + 12 * k + j] == BlockLines(events[k], k, clocks[k])[j]
  {
    var n := |events|;
    BlocksLayout(events, clocks, n);
    var blocks := Blocks(events, clocks, n);
    assert |HeaderLines| == 5;
    forall k, j | 0 <= k < n && 0 <= j < 12
      ensures (HeaderLines + blocks + [CalendarEnd])[5 + 12 * k + j] == BlockLines(events[k], k, clocks[k])[j]
    {
      Middle(HeaderLines, blocks, [CalendarEnd], 5 + 12 * k + j);
    }
    Ends(HeaderLines, blocks, CalendarEnd);
  }

  /**
   * Within a block, as `split('\n')` leaves its lines (with their `\r`), only
   * the first line starts with `BEGIN:VEVENT` and only the last with `END:VEVENT`.
   */
  lemma BlockMarkers(e: Event, index: nat, clock: ClockReading, j: nat)
    requires j < 12
    ensures var line := BlockLines(e, index, clock)[j] + "\r";
      (StartsWith(line, BeginEvent) <==> j == 0) && (StartsWith(line, EndEvent) <==> j == 11)
  {
    var line := BlockLines(e, index, clock)[j] + "\r";
    if j == 0 {
      Extends(BeginEvent, "\r");
      Differs(line, EndEvent, 0);
    } else if j == 11 {
      Extends(EndEvent, "\r");
      Differs(line, BeginEvent, 0);
    } else {
      assert line[0] in {'U', 'D', 'S', 'T', 'X'};
      Differs(line, BeginEvent, 0);
      Differs(line, EndEvent, 0);
    }
  }

  /** No header line opens or closes a VEVENT, and neither does the footer. */
  lemma FrameMarkers(p: nat)
    requires p < 5
    ensures !StartsWith(HeaderLines[p] + "\r", BeginEvent) && !StartsWith(HeaderLines[p] + "\r", EndEvent)
    ensures !StartsWith(CalendarEnd + "\r", BeginEvent) && !StartsWith(CalendarEnd + "\r", EndEvent)
  {
    var line := HeaderLines[p] + "\r";
    if p == 0 {
      Differs(line, BeginEvent, 7);
    } else {
      Differs(line, BeginEvent, 0);
    }
    Differs(line, EndEvent, 0);
    Differs(CalendarEnd + "\r", BeginEvent, 0);
    Differs(CalendarEnd + "\r", EndEvent, 5);
  }

  /**
   * A content line of the document is `BEGIN:VEVENT` exactly at the first
   * line of a block and `END:VEVENT` exactly at the last.
   */
  lemma VEventMarkers(events: seq<Event>, clocks: seq<ClockReading>, p: nat)
    requires |events| == |clocks|
    requires p < |DocLines(events, clocks)|
    ensures var doc, n := DocLines(events, clocks), |events|;
      (doc[p] == BeginEvent <==> 5 <= p < 5 + 12 * n && (p - 5) % 12 == 0)
      && (doc[p] == EndEvent <==> 5 <= p < 5 + 12 * n && (p - 5) % 12 == 11)
  {
    var doc, n := DocLines(events, clocks), |events|;
    DocLinesLayout(events, clocks);
    Extends(BeginEvent, "\r");
    Extends(EndEvent, "\r");
    if p < 5 {
      FrameMarkers(p);
      assert doc[p] == doc[..5][p];
    } else if p == 5 + 12 * n {
      FrameMarkers(0);
    } else {
      var k, j := (p - 5) / 12, (p - 5) % 12;
      assert p == 5 + 12 * k + j;
      BlockMarkers(events[k], k, clocks[k], j);
    }
  }

  /** The document opens the calendar first and closes it last. */
  lemma DocumentFrame(events: seq<Event>, clocks: seq<ClockReading>)
    requires |events| == |clocks|
    ensures var doc := Document(events, clocks);
      StartsWith(doc, CalendarBegin + Crlf)
      && |doc| >= |CalendarEnd + Crlf|
      && doc[|doc| - |CalendarEnd + Crlf|..] == CalendarEnd + Crlf
  {
    var lines := DocLines(events, clocks);
    var doc := Document(events, clocks);
    // the first line
    assert lines == [CalendarBegin] + lines[1..];
    RenderConcat([CalendarBegin], lines[1..]);
    RenderSnoc([], CalendarBegin);
    assert [] + [CalendarBegin] == [CalendarBegin];
    var opening, rest := CalendarBegin + Crlf, Render(lines[1..]);
    assert doc == opening + rest;
    assert doc[..|opening|] == opening;
    // the last line
    var body := HeaderLines + Blocks(events, clocks, |events|);
    RenderSnoc(body, CalendarEnd);
    var closing := CalendarEnd + Crlf;
    assert doc == Render(body) + closing;
    assert doc[|doc| - |closing|..] == closing;
  }

  /** With no records the document is the header and the footer alone. */
  lemma EmptyDocument(clocks: seq<ClockReading>)
    requires clocks == []
    ensures Document([], clocks)
         == CalendarBegin + Crlf + Version + Crlf + ProdId + Crlf + CalScale + Crlf
            + PublishMethod + Crlf + CalendarEnd + Crlf
  {
    assert DocLines([], clocks) == HeaderLines + [CalendarEnd];
    RenderSnoc(HeaderLines, CalendarEnd);
    RenderHeader();
  }
}
