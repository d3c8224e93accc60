/**
 The shared objects of a run and the tasks over them, updated in place: atomic counters, the readiness
 barrier, the stop signal and the table of participants.  Any schedule leaves them as the function
 `Participants.Run` says, so every theorem about its states is about these objects.
 */
module Harness {
  import opened Wrappers
  import opened Marker
  import opened Metrics
  import opened Thresholds
  import opened Participants
  import opened Lifecycles
  import opened Interleavings

  class ConnectionMetrics {
    var attempts: int
    var successes: int
    var failures: int
    var tlsFailures: int
    var reconnects: int
    var reconnectFailures: int
    var active: int

    constructor ()
      ensures Tally() == NO_CONNECTIONS
    {
      attempts, successes, failures, tlsFailures, reconnects, reconnectFailures, active := 0, 0, 0, 0, 0, 0, 0;
    }

    function Tally(): ConnectionCounters
      reads this
    {
      ConnectionCounters(attempts, successes, failures, tlsFailures, reconnects, reconnectFailures, active)
    }

    /** The one `fetch_add` or `fetch_sub` of a step, if it has one. */
    method Count(e: Effect)
      modifies this
      ensures Tally() == old(Tally()).Plus(Added(e))
    {
      match e
      case CountAttempt => attempts := attempts + 1;
      case CountSuccess => successes := successes + 1;
      case CountActive => active := active + 1;
      case DropActive => active := active - 1;
      case CountReconnect => reconnects := reconnects + 1;
      case CountFailure(_) => failures := failures + 1;
      case CountTlsFailure => tlsFailures := tlsFailures + 1;
      case CountReconnectFailure => reconnectFailures := reconnectFailures + 1;
      case _ =>
    }
  }

  class ReadinessBarrier {
    const required: set<Bytes>
    var ready: set<Bytes>

    constructor (required: set<Bytes>)
      ensures this.required == required && ready == {}
    {
      this.required := required;
      ready := {};
    }

    method MarkReady(id: Bytes)
      modifies this
      ensures ready == if id in required then old(ready) + {id} else old(ready)
    {
      if id in required {
        ready := ready + {id};
      }
    }
  }

  class StopSignal {
    var stop: bool
    var deadline: bool
    var barrierOver: bool

    constructor (stop: bool)
      ensures this.stop == stop && !deadline && !barrierOver
    {
      this.stop, deadline, barrierOver := stop, false, false;
    }

    /** The flags as a task sees them. */
    function See(ready: set<Bytes>): Flags
      reads this
    {
      Flags(ready, stop, deadline, barrierOver)
    }
  }

  /** The harness's own task, which waits at the barrier too. */
  class Supervisor {
    var watch: Watch

    constructor ()
      ensures watch == Looking
    {
      watch := Looking;
    }

    /** One turn of its wait; out of time, it gives the stop signal to everyone. */
    method Turn(barrier: ReadinessBarrier, signal: StopSignal, c: Choice)
      modifies this, signal`stop
      ensures signal.stop == (old(signal.stop) || old(watch) == Expired)
      ensures watch == Watched(barrier.required, old(signal.See(barrier.ready)), old(watch), c)
    {
      match watch
      case Looking => watch := if barrier.required <= barrier.ready then Passed else Watching;
      case Watching =>
        if c == Halt && signal.stop {
          watch := Passed;
        } else if c == GiveUp && signal.barrierOver {
          watch := Expired;
        } else if c == Go {
          watch := Looking;
        }
      case Expired =>
        signal.stop := true;
        watch := GaveUp;
      case Passed | GaveUp =>
    }
  }

  /** The runner's task that watches the threshold on failed connections. */
  class Watchdog {
    const abort: AbortConfig
    var monitor: Monitor

    constructor (abort: AbortConfig)
      ensures this.abort == abort && monitor == Monitor(None, false)
    {
      this.abort := abort;
      monitor := Monitor(None, false);
    }

    /** The first half of a look. */
    method ReadAttempts(metrics: ConnectionMetrics)
      modifies this
      ensures monitor == old(monitor).(seen := Some(metrics.attempts))
    {
      monitor := Monitor(Some(metrics.attempts), monitor.aborted);
    }

    /** The second half; on a violation it gives the stop signal. */
    method ReadFailures(metrics: ConnectionMetrics, signal: StopSignal, sent: nat)
      modifies this, signal`stop
      ensures var seen := old(monitor.seen);
        var violated := seen.Some? && Violated(abort, seen.value, metrics.failures, sent);
        && monitor == Monitor(None, old(monitor.aborted) || violated)
        && signal.stop == (old(signal.stop) || violated)
    {
      if monitor.seen.Some? && Violated(abort, monitor.seen.value, metrics.failures, sent) {
        monitor := Monitor(None, true);
        signal.stop := true;
      } else {
        monitor := Monitor(None, monitor.aborted);
      }
    }
  }

  datatype Shared = Shared(
    metrics: ConnectionMetrics, barrier: ReadinessBarrier, signal: StopSignal, supervisor: Supervisor,
    watchdog: Watchdog, tasks: array<Participant>)
  {
    function Value(): World
      reads metrics, barrier, signal, supervisor, watchdog, tasks
    {
      World(metrics.Tally(), signal.See(barrier.ready), supervisor.watch, watchdog.monitor, tasks[..])
    }
  }

  /** One step of the schedule. */
  method Perform(cfg: Config, h: Shared, e: Event)
    requires h.barrier.required == cfg.required && h.watchdog.abort == cfg.abort
    modifies h.metrics, h.barrier, h.signal, h.supervisor, h.watchdog, h.tasks
    ensures h.Value() == Step(cfg, old(h.Value()), e)
  {
    match e
    case Signal => h.signal.stop := true;
    case Supervise(c) => h.supervisor.Turn(h.barrier, h.signal, c);
    case Glance => h.watchdog.ReadAttempts(h.metrics);
    case Inspect(sent) => h.watchdog.ReadFailures(h.metrics, h.signal, sent);
    case PassDeadline => h.signal.deadline := true;
    case PassBarrierDeadline => h.signal.barrierOver := true;
    case Move(i, c) =>
      if i < h.tasks.Length {
        var p := h.tasks[i];
        var t := StepOf(cfg, h.signal.See(h.barrier.ready), p, c);
        hide StepOf, Added, Moved;
        h.metrics.Count(t.1);
        if t.1 == MarkReady {
          h.barrier.MarkReady(p.id);
        }
        h.tasks[i] := Moved(p, t);
      }
  }

  /**
   A schedule.  From fresh objects it keeps the invariant: what the counters show is what the tasks did, and
   the barrier opens only for participants that are connected.
   */
  method RunTasks(cfg: Config, h: Shared, events: seq<Event>)
    requires h.barrier.required == cfg.required && h.watchdog.abort == cfg.abort
    modifies h.metrics, h.barrier, h.signal, h.supervisor, h.watchdog, h.tasks
    ensures h.Value() == Run(cfg, old(h.Value()), events)
    ensures Initial(old(h.Value())) ==> Inv(cfg, h.Value())
  {
    var i := 0;
    assert events[0..] == events;
    hide Step, Initial, Inv;
    while i < |events|
      invariant 0 <= i <= |events|
      invariant Run(cfg, h.Value(), events[i..]) == Run(cfg, old(h.Value()), events)
    {
      assert events[i..][0] == events[i] && events[i..][1..] == events[i + 1..];
      Perform(cfg, h, events[i]);
      i := i + 1;
    }
    if Initial(old(h.Value())) {
      InitialInv(cfg, old(h.Value()));
      RunKeepsInv(cfg, old(h.Value()), events);
    }
  }
}
