/**
 * The `GET` handler of the calendar route: serve the stored document while
 * it is fresh, otherwise scan the upstream feed and write a new document.
 * The feed text and the clock readings are parameters; the HTTP response
 * is reduced to its body, and a thrown scan error to `Err`.
 */
module Route {
  import opened Wrappers
  import opened Parser
  import opened Generator
  import opened Cache

  /** `CACHE_DURATION`: one hour, in milliseconds. */
  const CacheDuration: int := 60 * 60 * 1000

  /**
   * `cachedICS && (now - lastUpdate) < CACHE_DURATION`: a stored string
   * is truthy when it is present and not empty.
   */
  predicate Fresh(cachedICS: Option<string>, lastUpdate: int, now: int)
  {
    cachedICS.Some? && cachedICS.value != "" && now - lastUpdate < CacheDuration
  }

  /** A cleared store is never served. */
  lemma ClearedNeverFresh(now: int)
    ensures !Fresh(None, 0, now)
  {
  }

  /** An empty document is falsy and is never served. */
  lemma EmptyNeverFresh(lastUpdate: int, now: int)
    ensures !Fresh(Some(""), lastUpdate, now)
  {
  }

  /** Once stale, a document stays stale as the clock moves forward. */
  lemma StaleStaysStale(cachedICS: Option<string>, lastUpdate: int, now: int, later: int)
    requires now <= later && !Fresh(cachedICS, lastUpdate, now)
    ensures !Fresh(cachedICS, lastUpdate, later)
  {
  }

  /** What `GET` sends back: the stored document, or a freshly written one. */
  method Get(store: Store, now: int, calendarData: string, clocks: seq<ClockReading>)
    returns (reply: Result<string, ScanError>)
    requires Parse(calendarData).Ok? ==> |clocks| == |Parse(calendarData).value|
    ensures Fresh(store.cachedICS, store.lastUpdate, now) ==> reply == Ok(store.cachedICS.value)
    ensures !Fresh(store.cachedICS, store.lastUpdate, now) ==>
      reply == match Parse(calendarData)
        case Ok(events) => Ok(Document(events, clocks))
        case Err(e) => Err(e)
  {
    var cachedICS := store.GetICSCache();
    var lastUpdate := store.GetLastUpdate();
    if cachedICS.Some? && cachedICS.value != "" && now - lastUpdate < CacheDuration {
      return Ok(cachedICS.value);
    }
    var parsed := ParseCalendarEvents(calendarData);
    if parsed.Err? {
      return Err(parsed.error);
    }
    var icsContent := GenerateICS(parsed.value, clocks);
    reply := Ok(icsContent);
  }

  /** After `clearCache`, `GET` always rewrites the document. */
  method ClearThenGet(store: Store, now: int, calendarData: string, clocks: seq<ClockReading>)
    returns (reply: Result<string, ScanError>)
    requires Parse(calendarData).Ok? ==> |clocks| == |Parse(calendarData).value|
    modifies store
    ensures reply == match Parse(calendarData)
        case Ok(events) => Ok(Document(events, clocks))
        case Err(e) => Err(e)
  {
    store.ClearCache();
    ClearedNeverFresh(now);
    reply := Get(store, now, calendarData, clocks);
  }

  /** Within the hour after `setICSCache(c)` with `c` non-empty, `GET` serves `c`. */
  method SetThenGet(store: Store, icsContent: string, written: int, now: int,
                    calendarData: string, clocks: seq<ClockReading>)
    returns (reply: Result<string, ScanError>)
    requires Parse(calendarData).Ok? ==> |clocks| == |Parse(calendarData).value|
    modifies store
    ensures icsContent != "" && now - written < CacheDuration ==> reply == Ok(icsContent)
    ensures icsContent == "" || now - written >= CacheDuration ==>
      reply == match Parse(calendarData)
        case Ok(events) => Ok(Document(events, clocks))
        case Err(e) => Err(e)
  {
    store.SetICSCache(icsContent, written);
    reply := Get(store, now, calendarData, clocks);
  }
}
