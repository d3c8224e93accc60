/** The shared counters (src/metrics.rs:8-22); the histograms are not part of this model. */
module Metrics {
  /** The counters of dials and sessions. */
  datatype ConnectionCounters = ConnectionCounters(
    attempts: int, successes: int, failures: int, tlsFailures: int,
    reconnects: int, reconnectFailures: int, active: int)
  {
    /** Counter by counter: what concurrent `fetch_add`s amount to, in any order. */
    function Plus(d: ConnectionCounters): ConnectionCounters {
      ConnectionCounters(
        attempts + d.attempts, successes + d.successes, failures + d.failures, tlsFailures + d.tlsFailures,
        reconnects + d.reconnects, reconnectFailures + d.reconnectFailures, active + d.active)
    }
  }

  const NO_CONNECTIONS := ConnectionCounters(0, 0, 0, 0, 0, 0, 0)

  /** The counters of messages. */
  datatype MessageCounters = MessageCounters(
    sent: int, received: int, duplicates: int, dropped: int, localDropped: int, timeouts: int)
  {
    function Plus(d: MessageCounters): MessageCounters {
      MessageCounters(sent + d.sent, received + d.received, duplicates + d.duplicates,
                      dropped + d.dropped, localDropped + d.localDropped, timeouts + d.timeouts)
    }

    function Minus(d: MessageCounters): MessageCounters {
      MessageCounters(sent - d.sent, received - d.received, duplicates - d.duplicates,
                      dropped - d.dropped, localDropped - d.localDropped, timeouts - d.timeouts)
    }
  }

  const NO_MESSAGES := MessageCounters(0, 0, 0, 0, 0, 0)

  /** The counters that the send and read loops of all tasks touch; `foreign` is what the other tasks have added. */
  class MessageMetrics {
    var sent: int
    var received: int
    var duplicates: int
    var dropped: int
    var localDropped: int
    var timeouts: int
    ghost var foreign: MessageCounters

    constructor ()
      ensures Tally() == foreign == NO_MESSAGES
    {
      sent, received, duplicates, dropped, localDropped, timeouts := 0, 0, 0, 0, 0, 0;
      foreign := NO_MESSAGES;
    }

    function Tally(): MessageCounters
      reads this
    {
      MessageCounters(sent, received, duplicates, dropped, localDropped, timeouts)
    }

    /** What this task has added. */
    ghost function Own(): MessageCounters
      reads this
    {
      Tally().Minus(foreign)
    }

    /** What other tasks add while this one waits. */
    method Meanwhile(d: MessageCounters)
      modifies this
      ensures Tally() == old(Tally()).Plus(d) && foreign == old(foreign).Plus(d) && Own() == old(Own())
    {
      sent, received, duplicates := sent + d.sent, received + d.received, duplicates + d.duplicates;
      dropped, localDropped, timeouts := dropped + d.dropped, localDropped + d.localDropped, timeouts + d.timeouts;
      foreign := foreign.Plus(d);
    }

    method RecordLocalDrop(events: nat)
      modifies this`localDropped, this`dropped
      ensures Tally() == old(Tally()).Plus(NO_MESSAGES.(dropped := events, localDropped := events))
    {
      localDropped := localDropped + events;
      dropped := dropped + events;
    }

    method RecordWriteFailure(events: nat, timedOut: bool)
      modifies this`dropped, this`timeouts
      ensures Tally() == old(Tally()).Plus(
        NO_MESSAGES.(dropped := events, timeouts := if timedOut then events else 0))
    {
      dropped := dropped + events;
      if timedOut {
        timeouts := timeouts + events;
      }
    }
  }
}
