/** What every participant keeps, step by step: the counters it caused, its attempts and its trace. */
module Lifecycles {
  import opened Wrappers
  import opened Marker
  import opened Metrics
  import opened Participants

  // ---- where a phase lies in a turn of the loop ----

  /** The attempt of this turn has been counted. */
  function Begun(phase: Phase): nat {
    match phase
    case Ramp | LoopTop | Counting | Sleeping(_) => 0
    case Done(_, last) => if last == NotBegun then 0 else 1
    case _ => 1
  }

  /** It was counted and nothing else is counted of it yet. */
  function InFlight(phase: Phase): nat {
    match phase
    case Dialing | Opened => 1
    case Failed(fault) => if fault.dialing then 1 else 0
    case _ => 0
  }

  /** Its failure has been counted. */
  function HasFailed(phase: Phase): nat {
    match phase
    case FailedTls(_) | Reporting(_) | Judging(_) | Deciding(_) => 1
    case Done(_, last) => if last == AttemptFailed then 1 else 0
    case _ => 0
  }

  /** The connection is counted as active. */
  function Active(phase: Phase): nat {
    match phase
    case Recovering | AnnouncingConnected | AnnouncingReady | Marking | Starting | Checking | Waiting | Sending
      | Reading | Closing(_) => 1
    case _ => 0
  }

  /** A success was counted whose trace is not complete. */
  function Open(phase: Phase): nat {
    match phase
    case Activating | Leaving(_) => 1
    case _ => Active(phase)
  }

  /** What that trace holds so far. */
  function Emitted(phase: Phase): seq<Lifecycle> {
    match phase
    case AnnouncingReady => [Connected]
    case Marking | Starting | Checking | Waiting | Sending | Reading | Closing(_) | Leaving(_) =>
      [Connected, Ready]
    case _ => []
  }

  function Triples(n: nat): seq<Lifecycle> {
    if n == 0 then [] else Triples(n - 1) + [Connected, Ready, Disconnected]
  }

  /** How often the loop may come round again. */
  function MaxAttempts(cfg: Config): nat {
    if cfg.reconnect then cfg.maxAttempts else 0
  }

  /** A failure of TLS has been counted as a failure, and not yet as one of TLS. */
  function TlsDue(phase: Phase): nat { If(phase.FailedTls? && phase.fault.tls) }

  /** A failure that counts as one of reconnecting has yet to be counted so. */
  function ReportDue(cfg: Config, s: Control): nat {
    If((s.phase.FailedTls? || s.phase.Reporting?) && if s.phase.fault.dialing then cfg.reconnect else s.attempt > 0)
  }

  /** A later success has yet to be counted as a reconnect. */
  function ReconnectDue(s: Control): nat { If(s.attempt > 0 && (s.phase.Activating? || s.phase.Recovering?)) }

  /** The session's `mark_ready` is behind it. */
  predicate PastMark(phase: Phase) {
    match phase
    case Starting | Checking | Waiting | Sending | Reading | Closing(_) | Leaving(_) => true
    case _ => false
  }

  // ---- what one step does to them ----

  /** Every quantity moves by exactly what the step's effect says. */
  ghost predicate Counted(s: Control, t: Turn) {
    var (n, e) := t;
    && n.attempt + Begun(n.phase) == s.attempt + Begun(s.phase) + If(e == CountAttempt)
    && InFlight(n.phase) + If(e == CountSuccess) + If(e == CountFailure(true)) + If(e == CancelDial) ==
       InFlight(s.phase) + If(e == CountAttempt)
    && n.attempt + HasFailed(n.phase) == s.attempt + HasFailed(s.phase) + If(e.CountFailure?)
    && Active(n.phase) + If(e == DropActive) == Active(s.phase) + If(e == CountActive)
  }

  /** What is counted late is counted once: when it is due, and only then. */
  ghost predicate Owed(cfg: Config, s: Control, t: Turn) {
    OwedTls(s, t) && OwedReport(cfg, s, t) && OwedReconnect(s, t)
  }

  ghost predicate OwedTls(s: Control, t: Turn) {
    TlsDue(t.0.phase) + If(t.1 == CountTlsFailure) == TlsDue(s.phase) + If(IsTlsFault(s, t.1))
  }

  ghost predicate OwedReport(cfg: Config, s: Control, t: Turn) {
    var (n, e) := t;
    ReportDue(cfg, n) + If(e == CountReconnectFailure) ==
    ReportDue(cfg, s) + If(e == CountFailure(true) && cfg.reconnect) + If(e == CountFailure(false) && s.attempt > 0)
  }

  ghost predicate OwedReconnect(s: Control, t: Turn) {
    var (n, e) := t;
    ReconnectDue(n) + If(e == CountReconnect) == ReconnectDue(s) + If(e == CountSuccess && s.attempt > 0)
  }

  ghost predicate Emits(s: Control, t: Turn) {
    var (n, e) := t;
    && Open(n.phase) + If(e == Emit(Disconnected)) == Open(s.phase) + If(e == CountSuccess)
    && Emitted(n.phase) == (if !e.Emit? then Emitted(s.phase) else if e.event == Disconnected then []
                            else Emitted(s.phase) + [e.event])
    && (e == Emit(Disconnected) || e == MarkReady ==> Emitted(s.phase) == [Connected, Ready])
    && (e == CountSuccess ==> Emitted(s.phase) == [])
  }

  ghost predicate Bounded(cfg: Config, s: Control) {
    && s.attempt <= MaxAttempts(cfg)
    && (s.phase.Deciding? ==> cfg.reconnect)
    && (s.phase.Done? && s.phase.exit == ReconnectExhausted ==>
          cfg.reconnect && s.attempt == cfg.maxAttempts && s.phase.last == AttemptFailed)
    && (s.phase.Done? && s.phase.last == AttemptFailed ==> s.phase.exit != Completed)
  }

  /** The barrier is passed only when it is open, events are produced only behind it. */
  ghost predicate Gated(cfg: Config, f: Flags, s: Control, t: Turn) {
    var (n, e) := t;
    && (n.phase.Sending? ==> s.phase.Sending? || cfg.required <= f.ready)
    && (e == Produce ==> s.phase.Sending?)
    && (PastMark(n.phase) ==> PastMark(s.phase) || e == MarkReady)
  }

  ghost predicate Accounts(cfg: Config, s: Control, t: Turn) {
    Counted(s, t) && Owed(cfg, s, t) && (Bounded(cfg, s) ==> Bounded(cfg, t.0))
  }

  predicate InDial(phase: Phase) {
    phase in {Ramp, LoopTop, Counting, Dialing, Opened, Activating, Recovering}
  }

  predicate InRecover(phase: Phase) {
    || phase.Failed? || phase.FailedTls? || phase.Reporting? || phase.Judging? || phase.Deciding? || phase.Sleeping?
  }

  predicate InSession(phase: Phase) {
    || phase in {AnnouncingConnected, AnnouncingReady, Marking, Starting, Checking, Waiting, Sending, Reading}
    || phase.Closing? || phase.Leaving?
  }

  lemma DialCounted(cfg: Config, f: Flags, s: Control, c: Choice)
    requires InDial(s.phase)
    ensures Counted(s, Dial(f, s, c)) && (Bounded(cfg, s) ==> Bounded(cfg, Dial(f, s, c).0))
  {
  }

  lemma DialOwes(cfg: Config, f: Flags, s: Control, c: Choice)
    requires InDial(s.phase)
    ensures Owed(cfg, s, Dial(f, s, c))
  {
  }

  lemma SessionCounted(cfg: Config, role: Role, f: Flags, s: Control, c: Choice)
    requires InSession(s.phase)
    ensures Counted(s, Session(cfg, role, f, s, c)) && (Bounded(cfg, s) ==> Bounded(cfg, Session(cfg, role, f, s, c).0))
  {
  }

  lemma SessionOwes(cfg: Config, role: Role, f: Flags, s: Control, c: Choice)
    requires InSession(s.phase)
    ensures Owed(cfg, s, Session(cfg, role, f, s, c))
  {
    SessionOwesTls(cfg, role, f, s, c);
    SessionOwesReport(cfg, role, f, s, c);
    SessionOwesReconnect(cfg, role, f, s, c);
    hide Session, OwedTls, OwedReport, OwedReconnect;
  }

  lemma SessionOwesTls(cfg: Config, role: Role, f: Flags, s: Control, c: Choice)
    requires InSession(s.phase)
    ensures OwedTls(s, Session(cfg, role, f, s, c))
  {
  }

  lemma SessionOwesReport(cfg: Config, role: Role, f: Flags, s: Control, c: Choice)
    requires InSession(s.phase)
    ensures OwedReport(cfg, s, Session(cfg, role, f, s, c))
  {
  }

  lemma SessionOwesReconnect(cfg: Config, role: Role, f: Flags, s: Control, c: Choice)
    requires InSession(s.phase)
    ensures OwedReconnect(s, Session(cfg, role, f, s, c))
  {
  }

  lemma RecoverCounted(cfg: Config, f: Flags, s: Control, c: Choice)
    requires InRecover(s.phase)
    ensures Counted(s, Recover(cfg, f, s, c)) && (Bounded(cfg, s) ==> Bounded(cfg, Recover(cfg, f, s, c).0))
  {
  }

  lemma RecoverOwes(cfg: Config, f: Flags, s: Control, c: Choice)
    requires InRecover(s.phase)
    ensures Owed(cfg, s, Recover(cfg, f, s, c))
  {
  }

  lemma DialActs(cfg: Config, f: Flags, s: Control, c: Choice)
    requires InDial(s.phase)
    ensures Emits(s, Dial(f, s, c)) && Gated(cfg, f, s, Dial(f, s, c))
  {
  }

  lemma SessionActs(cfg: Config, role: Role, f: Flags, s: Control, c: Choice)
    requires InSession(s.phase)
    ensures Emits(s, Session(cfg, role, f, s, c)) && Gated(cfg, f, s, Session(cfg, role, f, s, c))
  {
  }

  lemma RecoverActs(cfg: Config, f: Flags, s: Control, c: Choice)
    requires InRecover(s.phase)
    ensures Emits(s, Recover(cfg, f, s, c)) && Gated(cfg, f, s, Recover(cfg, f, s, c))
  {
  }

  lemma DoneStays(cfg: Config, role: Role, f: Flags, s: Control, c: Choice)
    requires s.phase.Done?
    ensures Next(cfg, role, f, s, c) == (s, Nothing)
  {
  }

  /** Any step of any participant, whatever the environment chooses. */
  lemma NextIsFair(cfg: Config, role: Role, f: Flags, s: Control, c: Choice)
    ensures var t := Next(cfg, role, f, s, c);
      Accounts(cfg, s, t) && Emits(s, t) && Gated(cfg, f, s, t)
  {
    hide Dial, Session, Recover, Counted, Owed, Emits, Gated, Bounded;
    if InDial(s.phase) {
      DialCounted(cfg, f, s, c);
      DialOwes(cfg, f, s, c);
      DialActs(cfg, f, s, c);
    } else if InRecover(s.phase) {
      RecoverCounted(cfg, f, s, c);
      RecoverOwes(cfg, f, s, c);
      RecoverActs(cfg, f, s, c);
    } else if InSession(s.phase) {
      SessionCounted(cfg, role, f, s, c);
      SessionOwes(cfg, role, f, s, c);
      SessionActs(cfg, role, f, s, c);
    } else {
      DoneStays(cfg, role, f, s, c);
      StayingIsFair(cfg, f, s);
    }
  }

  lemma StayingIsFair(cfg: Config, f: Flags, s: Control)
    ensures s.phase.Done? ==>
      Accounts(cfg, s, (s, Nothing)) && Emits(s, (s, Nothing)) && Gated(cfg, f, s, (s, Nothing))
  {
  }

  // ---- what every participant keeps ----

  /** Attempts are counted once each, and each earlier one failed. */
  ghost predicate CountsRight(p: Participant) {
    var s, h, t := p.control, p.history, p.history.tally;
    && t.attempts == s.attempt + Begun(s.phase)
    && t.attempts == t.successes + h.refused + h.cancelled + InFlight(s.phase)
    && t.failures == h.refused + h.broken == s.attempt + HasFailed(s.phase)
    && t.active == Active(s.phase)
  }

  /** The counters of TLS failures, reconnects and failed reconnects are exact, but for what is still due. */
  ghost predicate LagsBehind(cfg: Config, p: Participant) {
    var s, h, t := p.control, p.history, p.history.tally;
    && t.tlsFailures + TlsDue(s.phase) == h.tlsFaults <= h.refused + h.broken
    && t.reconnectFailures + ReportDue(cfg, s) == h.broken - h.firstBreaks + (if cfg.reconnect then h.refused else 0)
    && t.reconnects + ReconnectDue(s) == t.successes - h.firstSuccesses
    && h.firstBreaks <= h.broken
    && 0 <= t.tlsFailures && 0 <= t.reconnectFailures && 0 <= t.reconnects
  }

  /** One Connected, Ready, Disconnected for each success, the last one as far as it got. */
  ghost predicate Traces(p: Participant) {
    var s, h := p.control, p.history;
    && h.tally.successes >= Open(s.phase)
    && h.trace == Triples(h.tally.successes - Open(s.phase)) + Emitted(s.phase)
  }

  ghost predicate Local(cfg: Config, p: Participant) {
    CountsRight(p) && LagsBehind(cfg, p) && Traces(p) && Bounded(cfg, p.control)
  }

  lemma StartIsLocal(cfg: Config, p: Participant)
    requires p.control == Control(Ramp, 0) && p.history == NO_HISTORY
    ensures Local(cfg, p)
  {
  }

  lemma CountsRightKept(p: Participant, t: Turn)
    requires CountsRight(p) && Counted(p.control, t)
    ensures CountsRight(Moved(p, t))
  {
    hide Begun, InFlight, HasFailed, Active;
  }

  lemma LagsBehindKept(cfg: Config, p: Participant, t: Turn)
    requires LagsBehind(cfg, p) && Owed(cfg, p.control, t)
    ensures LagsBehind(cfg, Moved(p, t))
  {
    hide TlsDue, ReportDue, ReconnectDue, IsTlsFault;
    FaultIsFailure(p.control, t.1);
  }

  lemma FaultIsFailure(s: Control, e: Effect)
    ensures IsTlsFault(s, e) ==> e.CountFailure?
  {
  }

  lemma TracesKept(p: Participant, t: Turn)
    requires Traces(p) && Emits(p.control, t)
    ensures Traces(Moved(p, t))
  {
    hide Open, Emitted;
    var k := p.history.tally.successes - Open(p.control.phase);
    if t.1 == Emit(Disconnected) {
      assert Triples(k) + [Connected, Ready] + [Disconnected] == Triples(k + 1);
      assert Triples(k + 1) + [] == Triples(k + 1);
    } else if t.1.Emit? {
      assert Triples(k) + Emitted(p.control.phase) + [t.1.event] == Triples(k) + (Emitted(p.control.phase) + [t.1.event]);
    }
  }

  lemma LocalKept(cfg: Config, f: Flags, p: Participant, c: Choice)
    requires Local(cfg, p)
    ensures Local(cfg, Moved(p, StepOf(cfg, f, p, c)))
  {
    NextIsFair(cfg, p.role, f, p.control, c);
    hide Counted, Owed, Emits, Bounded, CountsRight, LagsBehind, Traces, Next;
    var t := StepOf(cfg, f, p, c);
    CountsRightKept(p, t);
    LagsBehindKept(cfg, p, t);
    TracesKept(p, t);
  }

  // ---- what that says of a participant ----

  /** At most `max_attempts` + 1 dials, one without reconnect; failures and reconnects are bounded by them. */
  lemma AttemptsAreBounded(cfg: Config, p: Participant)
    requires Local(cfg, p)
    ensures var t := p.history.tally;
      && 0 <= t.attempts <= MaxAttempts(cfg) + 1
      && t.tlsFailures <= t.failures <= t.attempts
      && t.reconnectFailures <= t.failures
      && t.reconnects <= t.successes
      && 0 <= t.active <= 1 && t.successes <= t.attempts
  {
  }

  /** Exhaustion is reported only when every one of `max_attempts` + 1 dials has failed. */
  lemma ExhaustedMeansAllFailed(cfg: Config, p: Participant)
    requires Local(cfg, p) && p.control.phase.Done? && p.control.phase.exit == ReconnectExhausted
    ensures cfg.reconnect && p.history.tally.attempts == p.history.tally.failures == cfg.maxAttempts + 1
  {
  }

  /** A finished participant's trace is one whole triple for each connection it made. */
  lemma FinishedTrace(cfg: Config, p: Participant)
    requires Local(cfg, p) && p.control.phase.Done?
    ensures p.history.trace == Triples(p.history.tally.successes)
    ensures p.history.tally.active == 0
    ensures p.history.tally.attempts == p.history.tally.successes + p.history.refused + p.history.cancelled
  {
    assert Triples(p.history.tally.successes) + [] == Triples(p.history.tally.successes);
  }
}
