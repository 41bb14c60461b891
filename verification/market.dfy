/**
 * The per-market connection object shared by every component, and the
 * severity scale held in its `logNumFatal` field:
 *   -1          not yet connected
 *    0          healthy
 *    1 .. 10    business fault: trading is stopped, the feed keeps running
 * 1000 .. 2000  transport fault: the market is reconnected
 *   > 2000      fatal: the market is frozen
 */
module Market {
  import opened Common

  const NOT_CONNECTED: int := -1
  const HEALTHY: int := 0

  predicate IsBusinessFault(level: int) { 1 <= level <= 10 }
  predicate NeedsReconnect(level: int) { 1000 <= level <= 2000 }
  predicate IsFrozen(level: int) { level > 2000 }

  /** A record put on the shared notification queue (`var.queue_info`).
      `warning` is `True` for faults and `None` for informational notices. */
  datatype Notice = Notice(market: string, message: string, warning: Option<bool>)

  /** The shared notification queue read by the display. */
  class NoticeQueue {
    var items: seq<Notice>

    constructor ()
      ensures items == []
    {
      items := [];
    }

    method Put(n: Notice)
      modifies this
      ensures items == old(items) + [n]
    {
      items := items + [n];
    }
  }

  /** The state of one market connection that the lifecycle reads and writes. */
  class Connection {
    const name: string
    var logNumFatal: int
    var message2000: string
    var messageStopped: string
    var timeoutOccurred: string
    var apiIsActive: bool
    /** An opaque snapshot of the last ticker pulled from the exchange. */
    var ticker: int

    constructor (name: string)
      ensures this.name == name
      ensures logNumFatal == NOT_CONNECTED && !apiIsActive
      ensures message2000 == "" && messageStopped == "" && timeoutOccurred == ""
    {
      this.name := name;
      logNumFatal := NOT_CONNECTED;
      message2000 := "";
      messageStopped := "";
      timeoutOccurred := "";
      apiIsActive := false;
      ticker := 0;
    }
  }
}
