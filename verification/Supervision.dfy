/**
 What stops a run: the signal, the harness's own wait at the barrier when it runs out of time
 (src/scenarios.rs:233-244), and the threshold on failed connections (src/runner.rs:81-96).  What happens to a
 participant stops the others by these two alone.
 */
module Supervision {
  import opened Wrappers
  import opened Thresholds
  import opened Participants
  import opened Lifecycles
  import opened Interleavings
  import opened Alarm

  /** The program has stopped the run itself. */
  predicate StoppedItself(w: World) { w.watch == GaveUp || w.monitor.aborted }

  /** In every run: stopped exactly by the signal, by the harness at the barrier, or for the threshold. */
  lemma {:induction false} StopHasThreeCauses(cfg: Config, w: World, events: seq<Event>)
    requires StoppedItself(w) ==> w.flags.stop
    ensures var after := Run(cfg, w, events);
      after.flags.stop <==> w.flags.stop || Signal in events || after.watch == GaveUp || after.monitor.aborted
    decreases |events|
  {
    if events != [] {
      StopOfStep(cfg, w, events[0]);
      hide Step;
      StopHasThreeCauses(cfg, Step(cfg, w, events[0]), events[1..]);
      StoppedForGood(cfg, Step(cfg, w, events[0]), events[1..]);
      assert Signal in events <==> events[0] == Signal || Signal in events[1..];
    }
  }

  lemma StopOfStep(cfg: Config, w: World, e: Event)
    requires StoppedItself(w) ==> w.flags.stop
    ensures var next := Step(cfg, w, e);
      && (next.flags.stop <==> w.flags.stop || e == Signal || StoppedItself(next))
      && (StoppedItself(w) ==> StoppedItself(next))
  {
    hide StepOf, Moved;
  }

  lemma {:induction false} StoppedForGood(cfg: Config, w: World, events: seq<Event>)
    ensures StoppedItself(w) ==> StoppedItself(Run(cfg, w, events))
    decreases |events|
  {
    if events != [] {
      StoppedForGoodOnce(cfg, w, events[0]);
      hide Step, StoppedItself;
      StoppedForGood(cfg, Step(cfg, w, events[0]), events[1..]);
    }
  }

  lemma StoppedForGoodOnce(cfg: Config, w: World, e: Event)
    ensures StoppedItself(w) ==> StoppedItself(Step(cfg, w, e))
  {
    hide StepOf, Moved;
  }

  /** What the harness's wait has seen: it passes only on everyone's readiness or a stop, and cancels only late. */
  ghost predicate WatchHolds(cfg: Config, w: World) {
    && (w.watch == Passed ==> w.flags.stop || cfg.required <= w.flags.ready)
    && (w.watch in {Watching, Expired, GaveUp} ==> cfg.required != {})
    && (w.watch in {Expired, GaveUp} ==> w.flags.barrierOver)
    && (w.watch == GaveUp ==> w.flags.stop)
  }

  lemma StepKeepsWatch(cfg: Config, w: World, e: Event)
    requires WatchHolds(cfg, w)
    ensures WatchHolds(cfg, Step(cfg, w, e))
  {
    hide StepOf, Moved;
  }

  lemma {:induction false} RunKeepsWatch(cfg: Config, w: World, events: seq<Event>)
    requires WatchHolds(cfg, w)
    ensures WatchHolds(cfg, Run(cfg, w, events))
    decreases |events|
  {
    if events != [] {
      StepKeepsWatch(cfg, w, events[0]);
      hide Step, WatchHolds;
      RunKeepsWatch(cfg, Step(cfg, w, events[0]), events[1..]);
    }
  }

  /** The harness may yet run out of time at the barrier. */
  predicate MayExpire(cfg: Config, w: World) {
    w.watch in {Watching, Expired} || (w.watch == Looking && !(cfg.required <= w.flags.ready))
  }

  lemma StepNeverExpires(cfg: Config, w: World, e: Event)
    requires !MayExpire(cfg, w) && w.watch != GaveUp
    ensures var next := Step(cfg, w, e);
      !MayExpire(cfg, next) && next.watch != GaveUp
  {
    hide StepOf, Moved;
  }

  lemma {:induction false} NeverExpires(cfg: Config, w: World, events: seq<Event>)
    requires !MayExpire(cfg, w) && w.watch != GaveUp
    ensures Run(cfg, w, events).watch != GaveUp
    decreases |events|
  {
    if events != [] {
      StepNeverExpires(cfg, w, events[0]);
      hide Step, MayExpire;
      NeverExpires(cfg, Step(cfg, w, events[0]), events[1..]);
    }
  }

  /** The harness's wait to its end: its time runs out, it gives up, and it stops the run. */
  const EXPIRY: seq<Event> := [PassBarrierDeadline, Supervise(GiveUp), Supervise(GiveUp)]

  ghost predicate Expires(w: World, after: World) {
    after.flags.stop && after.watch == GaveUp && after.ps == w.ps
  }

  lemma ExpiryStops(cfg: Config, w: World)
    requires w.watch in {Watching, Expired}
    ensures Expires(w, Run(cfg, w, EXPIRY))
  {
    assert EXPIRY[1..] == [Supervise(GiveUp), Supervise(GiveUp)] && EXPIRY[1..][1..] == [Supervise(GiveUp)];
    var late := Step(cfg, w, PassBarrierDeadline);
    var next := Step(cfg, late, Supervise(GiveUp));
    assert Run(cfg, w, EXPIRY) == Run(cfg, Step(cfg, next, Supervise(GiveUp)), []);
  }

  lemma ExpiryIsUnsignalled(cfg: Config, w: World) returns (events: seq<Event>)
    requires MayExpire(cfg, w)
    ensures Signal !in events && Expires(w, Run(cfg, w, events))
  {
    if w.watch == Looking {
      events := [Supervise(Go)] + EXPIRY;
      assert events[1..] == EXPIRY;
      ExpiryStops(cfg, Step(cfg, w, Supervise(Go)));
    } else {
      events := EXPIRY;
      ExpiryStops(cfg, w);
    }
  }

  /** From any state, the harness may give up at the barrier if and only if it has, or has yet to pass it. */
  lemma GivesUpExactly(cfg: Config, w: World)
    ensures (exists events :: Run(cfg, w, events).watch == GaveUp) <==> w.watch == GaveUp || MayExpire(cfg, w)
  {
    hide MayExpire, Run;
    if w.watch == GaveUp {
      RunOfNothing(cfg, w);
    } else if MayExpire(cfg, w) {
      var events := ExpiryIsUnsignalled(cfg, w);
      assert Run(cfg, w, events).watch == GaveUp;
    }
    forall events | Run(cfg, w, events).watch == GaveUp
      ensures w.watch == GaveUp || MayExpire(cfg, w)
    {
      if !MayExpire(cfg, w) && w.watch != GaveUp {
        NeverExpires(cfg, w, events);
      }
    }
  }

  /**
   A run may be stopped without the signal if and only if participants wait for each other at the barrier, or the
   threshold on failed connections is below the attempts that all participants may make.
   */
  lemma StopsUnsignalledExactly(cfg: Config, w: World)
    requires Initial(w) && !w.flags.Over() && w.ps != []
    ensures (exists events :: Signal !in events && Run(cfg, w, events).flags.stop) <==>
      cfg.required != {} || cfg.abort.Reachable(Most(cfg, w))
  {
    hide Run, AbortConfig.Reachable, Most;
    if cfg.abort.Reachable(Most(cfg, w)) {
      var events := RefusalsAbort(cfg, w);
    } else if cfg.required != {} {
      var events := ExpiryIsUnsignalled(cfg, w);
    }
    forall events | Signal !in events && Run(cfg, w, events).flags.stop
      ensures cfg.required != {} || cfg.abort.Reachable(Most(cfg, w))
    {
      if cfg.required == {} && !cfg.abort.Reachable(Most(cfg, w)) {
        NeverStops(cfg, w, events);
      }
    }
  }

  /** Without a barrier and such a threshold only the signal stops, whoever fails and however often. */
  lemma NeverStops(cfg: Config, w: World, events: seq<Event>)
    requires Initial(w) && !w.flags.stop && cfg.required == {} && !cfg.abort.Reachable(Most(cfg, w))
    ensures Run(cfg, w, events).flags.stop <==> Signal in events
  {
    StartIsCalm(w);
    hide Run, AbortConfig.Reachable, Most;
    InitialInv(cfg, w);
    StopHasThreeCauses(cfg, w, events);
    NeverExpires(cfg, w, events);
    NeverAborts(cfg, w, events);
  }

  /** In every run a deadline is past exactly if its time has come, whatever anyone does. */
  lemma {:induction false} ClocksTell(cfg: Config, w: World, events: seq<Event>)
    ensures Run(cfg, w, events).flags.barrierOver <==> w.flags.barrierOver || PassBarrierDeadline in events
    ensures Run(cfg, w, events).flags.deadline <==> w.flags.deadline || PassDeadline in events
    decreases |events|
  {
    if events != [] {
      ClockOfStep(cfg, w, events[0]);
      hide Step;
      ClocksTell(cfg, Step(cfg, w, events[0]), events[1..]);
      assert PassDeadline in events <==> events[0] == PassDeadline || PassDeadline in events[1..];
      assert PassBarrierDeadline in events <==> events[0] == PassBarrierDeadline || PassBarrierDeadline in events[1..];
    }
  }

  lemma ClockOfStep(cfg: Config, w: World, e: Event)
    ensures Step(cfg, w, e).flags.barrierOver <==> w.flags.barrierOver || e == PassBarrierDeadline
    ensures Step(cfg, w, e).flags.deadline <==> w.flags.deadline || e == PassDeadline
  {
    hide StepOf, Moved;
  }

  // ---- the harness's wait ends ----

  /** The branch of the harness's wait that is ready; without one it looks again. */
  function ReadyBranch(f: Flags): Event {
    Supervise(if f.stop then Halt else if f.barrierOver then GiveUp else Go)
  }

  function Turn(cfg: Config, w: World): World { Step(cfg, w, ReadyBranch(w.flags)) }

  /**
   While the flags stay, the harness's wait ends within three turns if and only if the run is stopped, the barrier's
   deadline is past or everyone required is ready; and it gives up exactly if none but the deadline ends it.
   */
  lemma HarnessWaitEnds(cfg: Config, w: World)
    requires w.watch == Looking || w.watch == Watching
    ensures var after := Turn(cfg, Turn(cfg, Turn(cfg, w)));
      && (after.watch == Passed || after.watch == GaveUp <==>
            w.flags.stop || w.flags.barrierOver || cfg.required <= w.flags.ready)
      && (after.watch == GaveUp <==>
            !w.flags.stop && w.flags.barrierOver && (w.watch == Watching || !(cfg.required <= w.flags.ready)))
      && (after.flags.stop <==> w.flags.stop || after.watch == GaveUp)
      && after.flags.ready == w.flags.ready && after.ps == w.ps
  {
    hide StepOf, Moved;
  }

  // ---- whom a lost participant holds back ----

  lemma {:induction false} DoneStaysDone(cfg: Config, w: World, events: seq<Event>, i: nat)
    requires i < |w.ps| && w.ps[i].control.phase.Done?
    ensures var after := Run(cfg, w, events);
      |after.ps| == |w.ps| && after.ps[i].control == w.ps[i].control && after.ps[i].history.trace == w.ps[i].history.trace
    decreases |events|
  {
    if events != [] {
      DoneStep(cfg, w, events[0], i);
      hide Step;
      DoneStaysDone(cfg, Step(cfg, w, events[0]), events[1..], i);
    }
  }

  lemma DoneStep(cfg: Config, w: World, e: Event, i: nat)
    requires i < |w.ps| && w.ps[i].control.phase.Done?
    ensures var next := Step(cfg, w, e);
      |next.ps| == |w.ps| && next.ps[i].control == w.ps[i].control && next.ps[i].history.trace == w.ps[i].history.trace
  {
    if e.Move? && e.i == i {
      DoneStays(cfg, w.ps[i].role, w.flags, w.ps[i].control, e.c);
    }
    hide Next;
  }

  /** Of a name that nobody else has, nobody has connected if its bearer has not. */
  lemma NotConnected(ps: seq<Participant>, i: nat)
    requires i < |ps| && ps[i].history.trace == []
    requires forall j :: 0 <= j < |ps| && ps[j].id == ps[i].id ==> j == i
    ensures !SomeConnected(ps, ps[i].id)
  {
  }

  /**
   A required participant that has ended without ever connecting, as after a refused dial, holds everyone back:
   whatever follows, nobody produces an event, and the harness's wait only ever ends with the run stopped.
   */
  lemma {:induction false} LostParticipantHoldsAll(cfg: Config, w: World, events: seq<Event>, i: nat, more: seq<Event>)
    requires Initial(w) && i < |w.ps| == |Run(cfg, w, events).ps| && w.ps[i].id in cfg.required
    requires forall j :: 0 <= j < |w.ps| && w.ps[j].id == w.ps[i].id ==> j == i
    requires var lost := Run(cfg, w, events).ps[i]; lost.control.phase.Done? && lost.history.trace == []
    ensures var after := Run(cfg, w, events + more);
      && (forall p :: p in after.ps ==> p.history.produced == 0)
      && (after.watch in {Passed, GaveUp} ==> after.flags.stop)
  {
    hide Run, AllHold, Total, Initial, SomeConnected;
    var lost, after := Run(cfg, w, events), Run(cfg, w, events + more);
    InitialInv(cfg, w);
    RunConcat(cfg, w, events, more);
    RunKeepsInv(cfg, w, events + more);
    NamesStay(cfg, w, events);
    NamesStay(cfg, w, events + more);
    DoneStaysDone(cfg, lost, more, i);
    NotConnected(after.ps, i);
    WatchStarts(cfg, w);
    RunKeepsWatch(cfg, w, events + more);
    forall p | p in after.ps
      ensures p.history.produced == 0
    {
      var j :| 0 <= j < |after.ps| && after.ps[j] == p;
      NoEventBeforeAllReady(cfg, w, events + more, j);
    }
  }

  lemma WatchStarts(cfg: Config, w: World)
    requires Initial(w)
    ensures WatchHolds(cfg, w)
  {
  }
}
