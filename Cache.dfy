/**
 * The shared store of `cache.ts`: the last calendar document written by the
 * scheduled job and the time it was written. `null` is `None`. Times are
 * the millisecond counts that `Date.now()` gives, passed in by the caller.
 */
module Cache {
  import opened Wrappers

  class Store {
    var cachedICS: Option<string>
    var lastUpdate: int

    /** The module state as loaded: nothing cached, updated at time 0. */
    constructor ()
      ensures cachedICS == None && lastUpdate == 0
    {
      cachedICS := None;
      lastUpdate := 0;
    }

    /** `setICSCache(icsContent)` at time `now`: both values overwritten. */
    method SetICSCache(icsContent: string, now: int)
      modifies this
      ensures cachedICS == Some(icsContent) && lastUpdate == now
    {
      cachedICS := Some(icsContent);
      lastUpdate := now;
    }

    /** `getICSCache()`. */
    method GetICSCache() returns (r: Option<string>)
      ensures r == cachedICS
    {
      r := cachedICS;
    }

    /** `getLastUpdate()`. */
    method GetLastUpdate() returns (r: int)
      ensures r == lastUpdate
    {
      r := lastUpdate;
    }

    /** `clearCache()`: back to the state the module starts in. */
    method ClearCache()
      modifies this
      ensures cachedICS == None && lastUpdate == 0
    {
      cachedICS := None;
      lastUpdate := 0;
    }
  }
}
