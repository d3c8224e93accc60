/**
 N participants dialling, running and reconnecting concurrently (src/scenarios.rs:213-230, 311-399,
 496-586).  Every touch of shared state (a counter, the ready set, the stop flag) is a step of its own,
 and a run is any interleaving of steps.  What a participant has done so far is kept as history.
 */
module Participants {
  import opened Wrappers
  import opened Marker
  import opened Metrics
  import opened Thresholds

  datatype Role = SendOnly | ReceiveOnly | SendReceive

  datatype Config = Config(
    reconnect: bool, maxAttempts: nat, required: set<Bytes>, tlsEnabled: bool, slowConnect: bool, abrupt: bool,
    abort: AbortConfig)

  datatype Lifecycle = Connected | Ready | Disconnected

  /** A failed turn of the loop: at the dial or in the session, and whether over TLS. */
  datatype Fault = Fault(dialing: bool, tls: bool)

  datatype Exit = Completed | FailedWith(fault: Fault) | ReconnectExhausted

  /** How the last turn of a finished participant's loop ended. */
  datatype LastTurn = NotBegun | TurnEnded | AttemptFailed

  /** The next thing a participant does. */
  datatype Phase =
    | Ramp
    | LoopTop
    | Counting
    | Dialing
    | Opened
    | Activating
    | Recovering
    | AnnouncingConnected
    | AnnouncingReady
    | Marking
    | Starting
    | Checking
    | Waiting
    | Sending
    | Reading
    | Closing(broken: Option<bool>)
    | Leaving(broken: Option<bool>)
    | Failed(fault: Fault)
    | FailedTls(fault: Fault)
    | Reporting(fault: Fault)
    | Judging(fault: Fault)
    | Deciding(fault: Fault)
    | Sleeping(fault: Fault)
    | Done(exit: Exit, last: LastTurn)

  /**
   What the environment decides: dials, timers, how a session goes, and which branch a `select!` takes of those
   that are ready.  `Halt` is the branch of the stop signal or the run's deadline, `GiveUp` that of the barrier's
   own deadline; `Break` is a failed read or write, over TLS or not, and `HangUp` an abrupt disconnect.
   */
  datatype Choice =
    | Go
    | Connect
    | Refuse(tls: bool)
    | Break(tls: bool)
    | HangUp
    | Halt
    | GiveUp

  /** The one thing a step does to the world outside the participant's own control state. */
  datatype Effect =
    | Nothing
    | CountAttempt
    | CountSuccess
    | CountActive
    | DropActive
    | CountReconnect
    | CountFailure(dialing: bool)
    | CountTlsFailure
    | CountReconnectFailure
    | Emit(event: Lifecycle)
    | MarkReady
    | Produce
    | CancelDial

  /** Where a participant is in its loop, and the loop's `attempt` variable. */
  datatype Control = Control(phase: Phase, attempt: nat)

  /** The ready set, the stop signal, and the two deadlines: the run's and the barrier's. */
  datatype Flags = Flags(ready: set<Bytes>, stop: bool, deadline: bool, barrierOver: bool)
  {
    predicate Over() { stop || deadline }
  }

  type Turn = (Control, Effect)

  function Quiet(phase: Phase, attempt: nat): Turn { (Control(phase, attempt), Nothing) }

  /** The loop's head: the ramp delay, the check, the dial and what is counted of it. */
  function Dial(f: Flags, s: Control, c: Choice): Turn {
    match s.phase
    case Ramp =>
      if c == Halt && f.Over() then Quiet(Done(Completed, NotBegun), s.attempt)
      else Quiet(if c == Go then LoopTop else Ramp, s.attempt)
    case LoopTop => Quiet(if f.Over() then Done(Completed, NotBegun) else Counting, s.attempt)
    case Counting => (s.(phase := Dialing), CountAttempt)
    case Dialing =>
      if c == Halt && f.Over() then (s.(phase := Done(Completed, TurnEnded)), CancelDial)
      else if c.Refuse? then Quiet(Failed(Fault(true, c.tls)), s.attempt)
      else Quiet(if c == Connect then Opened else Dialing, s.attempt)
    case Opened => (s.(phase := Activating), CountSuccess)
    case Activating => (s.(phase := Recovering), CountActive)
    case Recovering => (s.(phase := AnnouncingConnected), if s.attempt > 0 then CountReconnect else Nothing)
    case _ => (s, Nothing)
  }

  /** The connected part: announcement, barrier, workload and farewell. */
  function Session(cfg: Config, role: Role, f: Flags, s: Control, c: Choice): Turn {
    match s.phase
    case AnnouncingConnected => (s.(phase := AnnouncingReady), Emit(Connected))
    case AnnouncingReady => (s.(phase := Marking), Emit(Ready))
    case Marking => (s.(phase := Starting), MarkReady)
    case Starting =>
      Quiet(if role == ReceiveOnly then Reading
            else if c == Halt && cfg.slowConnect && f.Over() then Closing(None)
            else Checking, s.attempt)
    case Checking => Quiet(if cfg.required <= f.ready then Sending else Waiting, s.attempt)
    case Waiting =>
      Quiet(if (c == Halt && f.stop) || (c == GiveUp && f.barrierOver) then Closing(None)
            else if c == Go then Checking else Waiting, s.attempt)
    case Sending =>
      if c == Go then (s, Produce)
      else Quiet(if (c == Halt && f.Over()) || (c == HangUp && cfg.abrupt) then Closing(None)
                 else if c.Break? then Closing(Some(c.tls)) else Sending, s.attempt)
    case Reading =>
      Quiet(if c == Halt && f.Over() then Closing(None)
            else if c.Break? then Closing(Some(c.tls)) else Reading, s.attempt)
    case Closing(broken) => (s.(phase := Leaving(broken)), DropActive)
    case Leaving(broken) =>
      (s.(phase := if broken.Some? then Failed(Fault(false, cfg.tlsEnabled && broken.value))
                   else Done(Completed, TurnEnded)),
       Emit(Disconnected))
    case _ => (s, Nothing)
  }

  /** The failed part: the failure's counters, and whether to come round again. */
  function Recover(cfg: Config, f: Flags, s: Control, c: Choice): Turn {
    match s.phase
    case Failed(fault) => (s.(phase := FailedTls(fault)), CountFailure(fault.dialing))
    case FailedTls(fault) => (s.(phase := Reporting(fault)), if fault.tls then CountTlsFailure else Nothing)
    case Reporting(fault) =>
      if !fault.dialing then
        (s.(phase := Judging(fault)), if s.attempt > 0 then CountReconnectFailure else Nothing)
      else if !cfg.reconnect then Quiet(Done(FailedWith(fault), AttemptFailed), s.attempt)
      else (s.(phase := Deciding(fault)), CountReconnectFailure)
    case Judging(fault) =>
      Quiet(if !cfg.reconnect || f.deadline then Done(FailedWith(fault), AttemptFailed) else Deciding(fault), s.attempt)
    case Deciding(fault) =>
      if s.attempt >= cfg.maxAttempts then Quiet(Done(ReconnectExhausted, AttemptFailed), s.attempt)
      else Quiet(Sleeping(fault), s.attempt + 1)
    case Sleeping(fault) =>
      Quiet(if c == Halt && f.Over() then Done(if f.stop then Completed else FailedWith(fault), NotBegun)
            else if c == Go then LoopTop else Sleeping(fault), s.attempt)
    case _ => (s, Nothing)
  }

  /** `Done` is final; every other phase belongs to one of the three parts. */
  function Next(cfg: Config, role: Role, f: Flags, s: Control, c: Choice): Turn {
    match s.phase
    case Ramp | LoopTop | Counting | Dialing | Opened | Activating | Recovering => Dial(f, s, c)
    case Failed(_) | FailedTls(_) | Reporting(_) | Judging(_) | Deciding(_) | Sleeping(_) => Recover(cfg, f, s, c)
    case _ => Session(cfg, role, f, s, c)
  }

  /** What an effect adds to the shared counters. */
  function Added(e: Effect): ConnectionCounters {
    match e
    case CountAttempt => NO_CONNECTIONS.(attempts := 1)
    case CountSuccess => NO_CONNECTIONS.(successes := 1)
    case CountActive => NO_CONNECTIONS.(active := 1)
    case DropActive => NO_CONNECTIONS.(active := -1)
    case CountReconnect => NO_CONNECTIONS.(reconnects := 1)
    case CountFailure(_) => NO_CONNECTIONS.(failures := 1)
    case CountTlsFailure => NO_CONNECTIONS.(tlsFailures := 1)
    case CountReconnectFailure => NO_CONNECTIONS.(reconnectFailures := 1)
    case _ => NO_CONNECTIONS
  }

  /**
   What a participant has done since the run began: its part of the counters, and what they leave out.  A
   first turn is one before any reconnect.
   */
  datatype History = History(
    tally: ConnectionCounters, refused: nat, broken: nat, cancelled: nat,
    firstSuccesses: nat, firstBreaks: nat, tlsFaults: nat, produced: nat, trace: seq<Lifecycle>)

  const NO_HISTORY := History(NO_CONNECTIONS, 0, 0, 0, 0, 0, 0, 0, [])

  function If(b: bool): nat { if b then 1 else 0 }

  /** The failure counted by this step was one of TLS. */
  predicate IsTlsFault(s: Control, e: Effect) {
    e.CountFailure? && s.phase.Failed? && s.phase.fault.tls
  }

  function Remember(h: History, s: Control, e: Effect): History {
    History(h.tally.Plus(Added(e)),
            h.refused + If(e == CountFailure(true)),
            h.broken + If(e == CountFailure(false)),
            h.cancelled + If(e == CancelDial),
            h.firstSuccesses + If(e == CountSuccess && s.attempt == 0),
            h.firstBreaks + If(e == CountFailure(false) && s.attempt == 0),
            h.tlsFaults + If(IsTlsFault(s, e)),
            h.produced + If(e == Produce),
            if e.Emit? then h.trace + [e.event] else h.trace)
  }

  datatype Participant = Participant(id: Bytes, role: Role, control: Control, history: History)

  /**
   Where the harness is in its own wait at the barrier (src/scenarios.rs:233-244): about to look who is ready,
   waiting, past the barrier, or out of time; `GaveUp` is when it has stopped the run for that.
   */
  datatype Watch = Looking | Watching | Passed | Expired | GaveUp

  /**
   The runner's look at the threshold on failed connections (src/runner.rs:81-96): the attempts it has read, if it
   is about to read the failures; and whether it has stopped the run for them.
   */
  datatype Monitor = Monitor(seen: Option<int>, aborted: bool)

  datatype World = World(
    metrics: ConnectionCounters, flags: Flags, watch: Watch, monitor: Monitor, ps: seq<Participant>)

  /**
   A participant's step; a step of the harness's wait; the runner's look at the counters, attempts first
   (src/metrics.rs:116-118), with the events sent so far; the stop signal, from outside or for a threshold on messages
   or latency; the passing of a deadline.
   */
  datatype Event =
    | Move(i: nat, c: Choice)
    | Supervise(c: Choice)
    | Glance
    | Inspect(sent: nat)
    | Signal
    | PassDeadline
    | PassBarrierDeadline

  function StepOf(cfg: Config, f: Flags, p: Participant, c: Choice): Turn {
    Next(cfg, p.role, f, p.control, c)
  }

  function Moved(p: Participant, t: Turn): Participant {
    p.(control := t.0, history := Remember(p.history, p.control, t.1))
  }

  function Marked(cfg: Config, f: Flags, id: Bytes, e: Effect): Flags {
    if e == MarkReady && id in cfg.required then f.(ready := f.ready + {id}) else f
  }

  /** The next thing the harness does; without anyone required it passes at once. */
  function Watched(required: set<Bytes>, f: Flags, watch: Watch, c: Choice): Watch {
    match watch
    case Looking => if required <= f.ready then Passed else Watching
    case Watching =>
      if c == Halt && f.stop then Passed
      else if c == GiveUp && f.barrierOver then Expired
      else if c == Go then Looking
      else Watching
    case Expired => GaveUp
    case Passed | GaveUp => watch
  }

  predicate Alarmed(cfg: Config, w: World, sent: nat) {
    w.monitor.seen.Some? && Violated(cfg.abort, w.monitor.seen.value, w.metrics.failures, sent)
  }

  function Step(cfg: Config, w: World, e: Event): World {
    match e
    case Signal => w.(flags := w.flags.(stop := true))
    case Supervise(c) =>
      w.(watch := Watched(cfg.required, w.flags, w.watch, c), flags := w.flags.(stop := w.flags.stop || w.watch == Expired))
    case Glance => w.(monitor := w.monitor.(seen := Some(w.metrics.attempts)))
    case Inspect(sent) =>
      var violated := Alarmed(cfg, w, sent);
      w.(monitor := Monitor(None, w.monitor.aborted || violated), flags := w.flags.(stop := w.flags.stop || violated))
    case PassDeadline => w.(flags := w.flags.(deadline := true))
    case PassBarrierDeadline => w.(flags := w.flags.(barrierOver := true))
    case Move(i, c) =>
      if i >= |w.ps| then w
      else
        var p := w.ps[i];
        var t := StepOf(cfg, w.flags, p, c);
        World(w.metrics.Plus(Added(t.1)), Marked(cfg, w.flags, p.id, t.1), w.watch, w.monitor, w.ps[i := Moved(p, t)])
  }

  function Run(cfg: Config, w: World, events: seq<Event>): World
    decreases |events|
  {
    if events == [] then w else Run(cfg, Step(cfg, w, events[0]), events[1..])
  }

  /** Nothing has happened yet; stop and deadline may already be set. */
  ghost predicate Initial(w: World) {
    && w.metrics == NO_CONNECTIONS && w.flags.ready == {} && w.watch == Looking && w.monitor == Monitor(None, false)
    && forall p :: p in w.ps ==> p.control == Control(Ramp, 0) && p.history == NO_HISTORY
  }
}
