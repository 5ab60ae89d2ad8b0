# calendar-cron-job: the ICS route and its cache, in Dafny

calendar-cron-job republishes an upstream iCalendar feed. Its route
`/calendar/ics` scans the feed for VEVENT blocks (`parseCalendarEvents`), then
writes a new VCALENDAR document with one fixed-shape VEVENT per record
(`generateICS`). A document that the scheduled job stored in a two-variable
module cache is served instead while it is less than an hour old.

The model follows the code statement by statement:

- `Parser.ParseCalendarEvents` is the `while (running)` loop with its cursor,
  its `readingEvent` flag, its scratch record and its output list. It is
  proved equal to `Parser.Parse`, a function that runs `Parser.Step` once
  per line. The two ways the loop throws are `Err` results:
  - `ValueMissing`: a DTSTART or DTEND line without `:`;
  - `ReadPastEnd`: a `continue` on the last line, after which the loop head
    reads `lines[lines.length]`.
- `Generator.GenerateICS` appends to a string accumulator, as the source does.
  It is proved equal to `Generator.Document`, the CRLF rendering of the header
  lines, twelve lines per record and the footer. The clock is a parameter:
  one reading per record, the instant behind DTSTAMP and the milliseconds
  behind the UID.
- `Cache.Store` is the module state of `cache.ts` (`cachedICS`, `lastUpdate`)
  as a class whose methods overwrite its two fields.
- `Route.Get` is the decision of the `GET` handler: serve the stored document
  when `Route.Fresh` holds; otherwise scan and write a new one. As in the
  source, the fallback path does not store what it writes.

The main results:

- `RoundTrip.ParseGenerated`: the scanner reads back exactly the records the
  writer wrote, in order, for records titled `Flight Booked` whose dates are
  plain DATE-TIME values (one `T`, no `:`, CR or LF).
- `ParserFacts.ScanEmits`: every emitted record has the title
  `Flight Booked` and two non-empty dates, and there are at most as many
  records as `END:VEVENT` lines.
- `GeneratorFacts`: the document layout, DTSTAMP as `YYYYMMDDTHHMMSSZ`, and
  injective UIDs.
- `Route`: the cache rule.

Strings are sequences of characters. The string builtins that the route uses
are written out in `Text`: `startsWith`, `split`, `replace` with a string
pattern, the `/[-:]/g` removal, and the decimal rendering in a template
literal.

The scanner is evidently meant to keep the blocks that carry two DATE-TIME
values and to drop every other block without error. The code departs from
that in several ways, and the model follows the code:

- A dropped block whose `END:VEVENT` is the last line of the feed makes the
  scan read past the end and throw (`ParserExamples.MissingEnd`,
  `ParserExamples.DateOnlyStart`; see Findings).
- A DTSTART or DTEND line inside a block with no `:` throws, because the
  value read is `undefined` (`ParserFacts.ColonlessStartThrows`,
  `ParserFacts.ColonlessEndThrows`).
- A malformed value is stored before the flag is cleared. The record is
  still emitted at the next `END:VEVENT` whenever the stored value is
  non-empty and the other date is already set, whether from this block or
  from a dropped one (an empty value, as in `DTEND:`, leaves its date blank,
  so the block is dropped):
  - a date-only DTEND after a valid DTSTART
    (`ParserExamples.MalformedEndEmitted`);
  - a date-only DTSTART after a valid DTEND
    (`ParserExamples.MalformedStartAfterEndEmitted`);
  - two date-only values from different blocks
    (`ParserExamples.DroppedValuesCombined`).
- A dropped block leaves its fields in the scratch record, so its DTSTART
  carries into the next block's record (`ParserExamples.StaleStartCarried`).

## Model

| member | source | states |
|---|---|---|
| Parser.ParseCalendarEvents | app/calendar/ics/route.ts:47-111 | the loop returns `Parse(calendarData)`: the records, or the error it throws |
| ParserFacts.ReadValueDefined | app/calendar/ics/route.ts:68 | `split(':')[1]` exists exactly when the line contains `:`; otherwise the value read throws |
| ParserFacts.ReadValueBetweenColons | app/calendar/ics/route.ts:68 | the value is the text between the first and second `:`, or to the end of the line, with its first `\r` removed |
| ParserFacts.MalformedIffNotOneT | app/calendar/ics/route.ts:69 | a value is malformed exactly when it does not contain exactly one `T` |
| ParserFacts.DateTimeAccepted | app/calendar/ics/route.ts:69 | a `date T time` value is accepted; a DATE value with no `T` is malformed |
| ParserFacts.StepFrame | app/calendar/ics/route.ts:60-107 | one pass either keeps the output and changes a date only on a line carrying that key, or is an `END:VEVENT` that appends the scratch record (both dates non-empty) and resets it to blank |
| ParserFacts.SkipClearsFlag | app/calendar/ics/route.ts:69-94 | every `continue` path leaves the flag cleared |
| ParserFacts.MalformedStartSkips | app/calendar/ics/route.ts:67-73 | a malformed DTSTART stores its value, clears the flag, skips the rest of the line and keeps the end date |
| ParserFacts.MalformedEndSkips | app/calendar/ics/route.ts:75-81 | a malformed DTEND stores its value, clears the flag, skips the `END:VEVENT` test and keeps the start date |
| ParserFacts.ColonlessStartThrows | app/calendar/ics/route.ts:67-68 | a DTSTART line without `:` inside a block throws `ValueMissing` |
| ParserFacts.ColonlessEndThrows | app/calendar/ics/route.ts:75-76 | a DTEND line without `:` inside a block throws `ValueMissing` |
| ParserFacts.StepKeepsInv | app/calendar/ics/route.ts:65-100 | a step keeps the invariant: scratch dates imply the title `Flight Booked`, and every emitted record is fit to emit |
| ParserFacts.ScanEmits | app/calendar/ics/route.ts:60-108 | a scan only extends the output, appends at most one record per `END:VEVENT` line, and every record it holds has title `Flight Booked` and non-empty dates |
| ParserFacts.ParseEmits | app/calendar/ics/route.ts:47-111 | a feed that parses yields no more records than `END:VEVENT` lines, each titled `Flight Booked` with non-empty dates |
| ParserFacts.ScanWithoutBegin | app/calendar/ics/route.ts:61-94 | from a closed block with a blank scratch record and no `BEGIN:VEVENT` ahead, the scan emits nothing more, and throws exactly when the last line is `END:VEVENT` |
| ParserFacts.ParseWithoutBegin | app/calendar/ics/route.ts:47-111 | a feed without `BEGIN:VEVENT` gives no records, or throws when its last line is `END:VEVENT` |
| ParserFacts.LastLine | app/calendar/ics/route.ts:103-107 | on the last line a normal pass ends the scan with the output, and a `continue` reads past the end |
| ParserExamples.SingleBlock | app/calendar/ics/route.ts:60-101 | one complete block yields one record carrying its two dates |
| ParserExamples.DateOnlyStart | app/calendar/ics/route.ts:67-73 | a date-only DTSTART that comes before the DTEND, with no stale end date, drops the block when a line follows, and throws when its `END:VEVENT` ends the feed |
| ParserExamples.MalformedEndEmitted | app/calendar/ics/route.ts:75-95 | a valid DTSTART followed by a malformed DTEND is still emitted, with the malformed end |
| ParserExamples.MalformedStartAfterEndEmitted | app/calendar/ics/route.ts:67-95 | a valid DTEND followed by a date-only DTSTART is still emitted, with the date-only start |
| ParserExamples.DroppedValuesCombined | app/calendar/ics/route.ts:61-100 | a dropped block's date-only DTEND and the next block's date-only DTSTART make one record |
| ParserExamples.StaleStartCarried | app/calendar/ics/route.ts:89-100 | a dropped block's DTSTART carries into the next block's record |
| ParserExamples.MissingEnd | app/calendar/ics/route.ts:91-93 | a block without DTEND is dropped, or throws when its `END:VEVENT` is the last line |
| Text.JoinSplit | app/calendar/ics/route.ts:48 | joining the pieces of `split` gives back the text |
| Text.SplitJoin | app/calendar/ics/route.ts:48 | splitting a join of separator-free pieces gives back the pieces |
| Text.ReplaceFirstAt | app/calendar/ics/route.ts:68 | `replace('\r', '')` removes the first `\r` and keeps everything after it |
| Text.StripConcat | app/calendar/ics/route.ts:121 | removing `-` and `:` distributes over concatenation |
| Text.NatToStringValue | app/calendar/ics/route.ts:123 | the decimal rendering of a number reads back as that number |
| Text.NatToStringInjective | app/calendar/ics/route.ts:123 | different numbers render differently |
| Text.PadValue | app/calendar/ics/route.ts:121 | a zero-padded field of `toISOString` reads back as its number when it fits the width |
| Generator.WriteEvent | app/calendar/ics/route.ts:120-134 | the callback appends exactly the twelve CRLF-terminated lines of the record's block |
| Generator.RenderHeader | app/calendar/ics/route.ts:114-118 | the five header lines rendered are the header text written |
| Generator.GenerateICS | app/calendar/ics/route.ts:113-138 | the accumulator ends as the rendering of header, blocks in input order, and footer |
| GeneratorFacts.TimestampIsUtcDateTime | app/calendar/ics/route.ts:121 | DTSTAMP is the UTC DATE-TIME `YYYYMMDDTHHMMSSZ`: separators and milliseconds dropped, `Z` kept |
| GeneratorFacts.UtcDateTimeFields | app/calendar/ics/route.ts:121 | DTSTAMP has 16 characters, digits around one `T` and a final `Z`, and its digit groups read back as the instant's fields |
| GeneratorFacts.UidInjective | app/calendar/ics/route.ts:123 | UIDs built from different clock values or indices differ |
| GeneratorFacts.BlocksLayout | app/calendar/ics/route.ts:120-134 | the blocks of n records are 12n lines, record k's line j at position 12k+j |
| GeneratorFacts.DocLinesLayout | app/calendar/ics/route.ts:113-138 | the document has 12n+6 lines: the header first, the footer last, record k's block at 5+12k |
| GeneratorFacts.BlockMarkers | app/calendar/ics/route.ts:122-133 | among a written block's lines, each with the `\r` that `split('\n')` leaves, only the first starts with `BEGIN:VEVENT` and only the last with `END:VEVENT` |
| GeneratorFacts.VEventMarkers | app/calendar/ics/route.ts:113-138 | a document line is `BEGIN:VEVENT` (or `END:VEVENT`) exactly at the first (or last) line of some block |
| GeneratorFacts.DocumentFrame | app/calendar/ics/route.ts:113-138 | every document starts with `BEGIN:VCALENDAR` CRLF and ends with `END:VCALENDAR` CRLF |
| GeneratorFacts.EmptyDocument | app/calendar/ics/route.ts:113-138 | no records gives exactly the header and the footer |
| RoundTrip.SplitRender | app/calendar/ics/route.ts:48 | splitting CRLF-terminated lines on `\n` gives each line with a trailing `\r`, then the remainder |
| RoundTrip.BlockLineKinds | app/calendar/ics/route.ts:122-133 | among a written block's `\r`-terminated lines, only line 2 starts with `DTSTART` and only line 3 with `DTEND` |
| RoundTrip.ParseGenerated | app/calendar/ics/route.ts:47-138 | for records titled `Flight Booked` whose dates are plain DATE-TIME values (one `T`, no `:`, CR or LF), scanning a written document gives back exactly the records written, in order |
| Cache.Store.constructor | app/api/calendar/cache.ts:2-3 | the store starts with no document and `lastUpdate` 0 |
| Cache.Store.SetICSCache | app/api/calendar/cache.ts:5-8 | both values are overwritten: the document and the time of the call |
| Cache.Store.GetICSCache | app/api/calendar/cache.ts:10-12 | returns the stored document and changes nothing |
| Cache.Store.GetLastUpdate | app/api/calendar/cache.ts:14-16 | returns the stored time and changes nothing |
| Cache.Store.ClearCache | app/api/calendar/cache.ts:18-21 | restores exactly the initial state |
| Route.ClearedNeverFresh | app/calendar/ics/route.ts:149 | the cleared state is never served |
| Route.EmptyNeverFresh | app/calendar/ics/route.ts:149 | an empty document is falsy and never served |
| Route.StaleStaysStale | app/calendar/ics/route.ts:149 | a stale document stays stale as the clock moves forward |
| Route.Get | app/calendar/ics/route.ts:142-182 | the stored document is served exactly when it is present, non-empty and written less than `CACHE_DURATION` (3600000 ms) ago, and is returned as stored; otherwise the feed is scanned and a new document written, or the scan's error returned |
| Route.ClearThenGet | app/api/calendar/cache.ts:18-21 | after `clearCache`, `GET` always writes a new document |
| Route.SetThenGet | app/api/calendar/cache.ts:5-8 | after storing a non-empty document, `GET` serves it for the next hour, and writes a new one once the hour is over |
| Guarded.GuardedNeverOverruns | app/calendar/ics/route.ts:103-107 | with the bound check on every path, the scan never reads past the last line |
| Guarded.GuardedAgrees | app/calendar/ics/route.ts:60-108 | wherever the scan as written does not read past the end, the corrected scan gives the same result |
| Guarded.ParseGuardedAgrees | app/calendar/ics/route.ts:47-111 | for whole feeds: the corrected scan keeps every result of the original and never reads past the end |
| Guarded.GuardedMissingEnd | app/calendar/ics/route.ts:91-93 | the feed that makes the original throw gives no records and no error |
| Guarded.ParseGuardedGenerated | app/calendar/ics/route.ts:47-138 | for records titled `Flight Booked` whose dates are plain DATE-TIME values (one `T`, no `:`, CR or LF), the corrected scan also reads back the records the writer wrote |

## Left out

- `fetchCalendarData` (route.ts:18-45): a network fetch through Node streams. The model takes the feed text as a parameter.
- `loadEnvConfig` and `CALENDAR_URL` (route.ts:8-10): environment configuration.
- The HTTP side of `GET`: response headers, `console.error` and the JSON body of the 500 reply. `Route.Get` reduces the reply to the document or the scan's error.
- `Date.now()` and `new Date()`: there is no wall clock. Each record takes one `ClockReading`, and `Route.Get` takes `now`.
- `Generator.ToISOString` covers years 0000-9999 only. Outside them `toISOString` writes a signed six-digit year.
- JavaScript numbers are doubles. Times and indices are unbounded integers; millisecond clocks stay far below 2^53, where doubles are exact.
- JavaScript strings are UTF-16 code units; the model's characters are not split into surrogate pairs.
- The `if (!readingEvent) continue` at route.ts:83-86 is unreachable. The flag is set when that block is entered, and every path that clears it has already left. No branch models it.
- Concurrent requests that share the module cache: calls are modelled as one sequence.
- RFC 5545 features that the code does not implement: line unfolding, text escaping, time zones, recurrence.
- types/app-modules.d.ts and next.config.ts are not part of this model: they declare types and framework settings only.

## Findings

| source | as written | input that shows it | evidently intended | confidence | as-written member | corrected member |
|---|---|---|---|---|---|---|
| app/calendar/ics/route.ts:91-93 | the `continue` paths (also lines 71-72 and 79-80) advance the cursor but skip the `line >= lines.length` test, so the loop head reads `lines[lines.length]` and `startsWith` throws; `GET` then answers 500 | a feed ending without a newline in `BEGIN:VEVENT` / `DTSTART:20240101T100000` / `END:VEVENT` | the scan stops at the end of the feed and returns the records emitted so far (here none) | medium; not executed | ParserExamples.MissingEnd | Guarded.ParseGuardedAgrees |
