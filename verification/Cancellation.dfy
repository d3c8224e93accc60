/**
 Cancellation and the run's deadline (src/scenarios.rs:274-287, 316-329, 395-398): once either has come no
 participant begins another attempt, and every wait has a branch that ends it.
 */
module Cancellation {
  import opened Wrappers
  import opened Marker
  import opened Metrics
  import opened Participants
  import opened Lifecycles
  import opened Interleavings

  /** Attempts counted, and the one that has passed the check and is about to be. */
  function Committed(p: Participant): int {
    p.history.tally.attempts + If(p.control.phase.Counting?)
  }

  lemma OverCommitsNothing(cfg: Config, f: Flags, p: Participant, c: Choice)
    requires f.Over()
    ensures Committed(Moved(p, StepOf(cfg, f, p, c))) == Committed(p)
  {
    NextCommitsNothing(cfg, p.role, f, p.control, c);
    hide Next;
  }

  ghost predicate CommitsNothing(s: Control, t: Turn) {
    If(t.0.phase.Counting?) + Added(t.1).attempts == If(s.phase.Counting?)
  }

  lemma PartsCommitNothing(cfg: Config, role: Role, f: Flags, s: Control, c: Choice)
    requires f.Over()
    ensures InDial(s.phase) ==> CommitsNothing(s, Dial(f, s, c))
    ensures InSession(s.phase) ==> CommitsNothing(s, Session(cfg, role, f, s, c))
    ensures InRecover(s.phase) ==> CommitsNothing(s, Recover(cfg, f, s, c))
  {
  }

  lemma NextCommitsNothing(cfg: Config, role: Role, f: Flags, s: Control, c: Choice)
    requires f.Over()
    ensures CommitsNothing(s, Next(cfg, role, f, s, c))
  {
    PartsCommitNothing(cfg, role, f, s, c);
    hide Dial, Session, Recover;
  }

  lemma OneStepCommitsNothing(cfg: Config, w: World, e: Event, i: nat)
    requires w.flags.Over() && i < |w.ps|
    ensures var after := Step(cfg, w, e);
      after.flags.Over() && |after.ps| == |w.ps| && Committed(after.ps[i]) == Committed(w.ps[i])
  {
    hide StepOf, Moved, Committed;
    if e.Move? && e.i < |w.ps| {
      OverCommitsNothing(cfg, w.flags, w.ps[e.i], e.c);
    }
  }

  /** Once the run is stopped or over, whatever the schedule, only a dial already decided on is still made. */
  lemma {:induction false} NoAttemptOnceOver(cfg: Config, w: World, events: seq<Event>, i: nat)
    requires w.flags.Over() && i < |w.ps|
    ensures var after := Run(cfg, w, events);
      && |after.ps| == |w.ps|
      && Committed(after.ps[i]) == Committed(w.ps[i])
      && after.ps[i].history.tally.attempts <= w.ps[i].history.tally.attempts + 1
    decreases |events|
  {
    if events != [] {
      OneStepCommitsNothing(cfg, w, events[0], i);
      hide Step;
      NoAttemptOnceOver(cfg, Step(cfg, w, events[0]), events[1..], i);
    }
  }

  // ---- which waits end ----

  /** One participant, and the shared flags as it sees them. */
  datatype Lone = Lone(flags: Flags, control: Control)

  /** The branch that a `select!` takes for the stop signal or a deadline; without one the barrier is tried again. */
  function EndingChoice(f: Flags, phase: Phase): Choice {
    if phase.Waiting? && !f.stop then (if f.barrierOver then GiveUp else Go) else Halt
  }

  function EndingTurn(cfg: Config, id: Bytes, role: Role, l: Lone): Lone {
    var (next, e) := Next(cfg, role, l.flags, l.control, EndingChoice(l.flags, l.control.phase));
    Lone(Marked(cfg, l.flags, id, e), next)
  }

  /** `n` steps of one participant, each wait ended as soon as a branch of it is ready. */
  function Cancelled(cfg: Config, id: Bytes, role: Role, l: Lone, n: nat): Lone
    decreases n
  {
    if n == 0 then l else Cancelled(cfg, id, role, EndingTurn(cfg, id, role, l), n - 1)
  }

  /** The barrier lies ahead: a slow connect ends before it, and a receiver never comes to it. */
  predicate BarrierAhead(cfg: Config, role: Role, phase: Phase) {
    || phase in {Checking, Waiting}
    || (role != ReceiveOnly && !cfg.slowConnect
        && phase in {Opened, Activating, Recovering, AnnouncingConnected, AnnouncingReady, Marking, Starting})
  }

  /** The barrier can be left: stopped, past its own deadline, or open, the participant's own mark included. */
  predicate BarrierEnds(cfg: Config, id: Bytes, l: Lone) {
    || l.flags.stop || l.flags.barrierOver
    || cfg.required <= if PastMark(l.control.phase) then l.flags.ready else l.flags.ready + {id}
  }

  /** How many steps are left at most. */
  function StepsLeft(l: Lone): nat {
    match l.control.phase
    case Done(_, _) => 0
    case Ramp | LoopTop | Dialing | Sleeping(_) => 1
    case Counting => 2
    case Deciding(_) => 2
    case Judging(_) => 3
    case Reporting(_) => 4
    case FailedTls(_) => 5
    case Failed(_) => 6
    case Leaving(_) => 7
    case Closing(_) => 8
    case Sending | Reading => 9
    case Checking => 10
    case Waiting => if l.flags.stop || l.flags.barrierOver then 9 else 11
    case Starting => 12
    case Marking => 13
    case AnnouncingReady => 14
    case AnnouncingConnected => 15
    case Recovering => 16
    case Activating => 17
    case Opened => 18
  }

  predicate Free(cfg: Config, id: Bytes, role: Role, l: Lone) {
    BarrierAhead(cfg, role, l.control.phase) ==> BarrierEnds(cfg, id, l)
  }

  /** What an ending turn does: it keeps the flags but for a mark, and goes on if it can. */
  ghost predicate Proceeds(cfg: Config, id: Bytes, role: Role, l: Lone, next: Lone) {
    && next.flags.Over()
    && (Free(cfg, id, role, next) <==> Free(cfg, id, role, l))
    && (if l.control.phase.Done? then next == l
        else if Free(cfg, id, role, l) then StepsLeft(next) < StepsLeft(l) else !next.control.phase.Done?)
  }

  lemma DialProceeds(cfg: Config, id: Bytes, role: Role, l: Lone)
    requires l.flags.Over() && InDial(l.control.phase)
    ensures Proceeds(cfg, id, role, l, EndingTurn(cfg, id, role, l))
  {
  }

  lemma RecoverProceeds(cfg: Config, id: Bytes, role: Role, l: Lone)
    requires l.flags.Over() && InRecover(l.control.phase)
    ensures Proceeds(cfg, id, role, l, EndingTurn(cfg, id, role, l))
  {
  }

  predicate BeforeBarrier(phase: Phase) { phase in {AnnouncingConnected, AnnouncingReady, Marking, Starting} }

  lemma ArrivalProceeds(cfg: Config, id: Bytes, role: Role, l: Lone)
    requires l.flags.Over() && BeforeBarrier(l.control.phase)
    ensures Proceeds(cfg, id, role, l, EndingTurn(cfg, id, role, l))
  {
  }

  lemma StayProceeds(cfg: Config, id: Bytes, role: Role, l: Lone)
    requires l.flags.Over() && InSession(l.control.phase) && !BeforeBarrier(l.control.phase)
    ensures Proceeds(cfg, id, role, l, EndingTurn(cfg, id, role, l))
  {
  }

  lemma SessionProceeds(cfg: Config, id: Bytes, role: Role, l: Lone)
    requires l.flags.Over() && InSession(l.control.phase)
    ensures Proceeds(cfg, id, role, l, EndingTurn(cfg, id, role, l))
  {
    hide EndingTurn, Proceeds;
    if BeforeBarrier(l.control.phase) {
      ArrivalProceeds(cfg, id, role, l);
    } else {
      StayProceeds(cfg, id, role, l);
    }
  }

  lemma DoneProceeds(cfg: Config, id: Bytes, role: Role, l: Lone)
    requires l.flags.Over() && l.control.phase.Done?
    ensures Proceeds(cfg, id, role, l, EndingTurn(cfg, id, role, l))
  {
  }

  lemma TurnProceeds(cfg: Config, id: Bytes, role: Role, l: Lone)
    requires l.flags.Over()
    ensures Proceeds(cfg, id, role, l, EndingTurn(cfg, id, role, l))
  {
    hide EndingTurn, Proceeds;
    if InDial(l.control.phase) {
      DialProceeds(cfg, id, role, l);
    } else if InRecover(l.control.phase) {
      RecoverProceeds(cfg, id, role, l);
    } else if InSession(l.control.phase) {
      SessionProceeds(cfg, id, role, l);
    } else {
      DoneProceeds(cfg, id, role, l);
    }
  }

  /**
   Cancellation and the run's deadline reach every phase but one: once either has come, a participant that takes
   the branches that are ready is done within eighteen steps if and only if the barrier is not ahead of it, or
   ends by the stop signal, by its own deadline or by being open.
   */
  lemma {:induction false} CancellationFinishes(cfg: Config, id: Bytes, role: Role, l: Lone, n: nat)
    requires l.flags.Over() && StepsLeft(l) <= n
    ensures Cancelled(cfg, id, role, l, n).control.phase.Done? <==>
      (BarrierAhead(cfg, role, l.control.phase) ==> BarrierEnds(cfg, id, l))
    ensures StepsLeft(l) <= 18
    decreases n
  {
    if Free(cfg, id, role, l) {
      FreeFinishes(cfg, id, role, l, n);
    } else {
      BlockedStays(cfg, id, role, l, n);
    }
  }

  lemma {:induction false} FreeFinishes(cfg: Config, id: Bytes, role: Role, l: Lone, n: nat)
    requires l.flags.Over() && Free(cfg, id, role, l) && StepsLeft(l) <= n
    ensures Cancelled(cfg, id, role, l, n).control.phase.Done?
    decreases n
  {
    if n > 0 {
      TurnProceeds(cfg, id, role, l);
      hide EndingTurn, Free;
      FreeFinishes(cfg, id, role, EndingTurn(cfg, id, role, l), n - 1);
    }
  }

  lemma {:induction false} BlockedStays(cfg: Config, id: Bytes, role: Role, l: Lone, n: nat)
    requires l.flags.Over() && !Free(cfg, id, role, l)
    ensures !Cancelled(cfg, id, role, l, n).control.phase.Done?
    decreases n
  {
    if n > 0 {
      TurnProceeds(cfg, id, role, l);
      BlockedIsNotDone(cfg, id, role, l);
      hide EndingTurn, Free;
      BlockedStays(cfg, id, role, EndingTurn(cfg, id, role, l), n - 1);
    } else {
      BlockedIsNotDone(cfg, id, role, l);
    }
  }

  lemma BlockedIsNotDone(cfg: Config, id: Bytes, role: Role, l: Lone)
    requires !Free(cfg, id, role, l)
    ensures !l.control.phase.Done?
  {
  }

  // ---- the barrier under every schedule ----

  predicate AtBarrier(p: Participant) { p.control.phase.Checking? || p.control.phase.Waiting? }

  predicate Open(cfg: Config, f: Flags) { f.stop || f.barrierOver || cfg.required <= f.ready }

  ghost predicate Grow(f: Flags, g: Flags) {
    (f.stop ==> g.stop) && (f.barrierOver ==> g.barrierOver) && f.ready <= g.ready
  }

  lemma StepHoldsBarrier(cfg: Config, w: World, e: Event, i: nat)
    requires i < |w.ps|
    ensures var after := Step(cfg, w, e);
      && |after.ps| == |w.ps| && Grow(w.flags, after.flags)
      && (AtBarrier(w.ps[i]) && !Open(cfg, w.flags) ==> AtBarrier(after.ps[i]))
  {
    if e.Move? && e.i < |w.ps| {
      var p := w.ps[e.i];
      if AtBarrier(p) {
        hide Dial, Recover;
      } else {
        hide Next;
      }
    }
  }

  /**
   Whatever the schedule, and however long past the run's deadline: a participant at the barrier is still there
   unless by then the run is stopped, the barrier's own deadline is past, or everyone required is ready.
   */
  lemma {:induction false} BarrierIgnoresRunDeadline(cfg: Config, w: World, events: seq<Event>, i: nat)
    requires i < |w.ps| && AtBarrier(w.ps[i])
    ensures var after := Run(cfg, w, events);
      && |after.ps| == |w.ps| && Grow(w.flags, after.flags)
      && (AtBarrier(after.ps[i]) || Open(cfg, after.flags))
    decreases |events|
  {
    if events != [] {
      var next := Step(cfg, w, events[0]);
      StepHoldsBarrier(cfg, w, events[0], i);
      hide Step;
      if AtBarrier(next.ps[i]) {
        BarrierIgnoresRunDeadline(cfg, next, events[1..], i);
      } else {
        FlagsGrow(cfg, next, events[1..]);
      }
    }
  }

  lemma {:induction false} FlagsGrow(cfg: Config, w: World, events: seq<Event>)
    ensures var after := Run(cfg, w, events);
      |after.ps| == |w.ps| && Grow(w.flags, after.flags)
    decreases |events|
  {
    if events != [] {
      StepGrows(cfg, w, events[0]);
      hide Step;
      FlagsGrow(cfg, Step(cfg, w, events[0]), events[1..]);
    }
  }

  lemma StepGrows(cfg: Config, w: World, e: Event)
    ensures var after := Step(cfg, w, e);
      |after.ps| == |w.ps| && Grow(w.flags, after.flags)
  {
    hide StepOf, Moved;
  }
}
