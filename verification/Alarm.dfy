/**
 When a run can be stopped for its failed connections.  The runner reads the attempts and then the failures, and
 what happens in between may put more failures into the ratio than attempts.
 */
module Alarm {
  import opened Wrappers
  import opened Metrics
  import opened Thresholds
  import opened Participants
  import opened Lifecycles
  import opened Interleavings

  /** How many attempts all participants may make, and so how many may fail. */
  function Most(cfg: Config, w: World): nat { |w.ps| * (MaxAttempts(cfg) + 1) }

  ghost predicate Calm(w: World) {
    !w.monitor.aborted && (w.monitor.seen.Some? ==> w.monitor.seen.value >= 0)
  }

  lemma StartIsCalm(w: World)
    requires Initial(w)
    ensures Calm(w)
  {
  }

  lemma CountersAreBounded(cfg: Config, w: World)
    requires Inv(cfg, w)
    ensures 0 <= w.metrics.failures <= w.metrics.attempts <= Most(cfg, w)
  {
    TotalIsBalanced(cfg, w.flags, w.ps);
    hide Total, AllHold, ReadyIsEarned, Count, MaxAttempts;
  }

  lemma StepNeverAborts(cfg: Config, w: World, e: Event)
    requires Inv(cfg, w) && Calm(w) && !cfg.abort.Reachable(Most(cfg, w))
    ensures Calm(Step(cfg, w, e))
  {
    CountersAreBounded(cfg, w);
    hide StepOf, Moved, Ratio, Most, Inv;
    if w.monitor.seen.Some? {
      RatioIsBounded(w.metrics.failures, w.monitor.seen.value, Most(cfg, w));
    }
  }

  /** There are no more failures than attempts that may be made, so a threshold of that or more stops nobody. */
  lemma {:induction false} NeverAborts(cfg: Config, w: World, events: seq<Event>)
    requires Inv(cfg, w) && Calm(w) && !cfg.abort.Reachable(Most(cfg, w))
    ensures !Run(cfg, w, events).monitor.aborted
    decreases |events|
  {
    if events != [] {
      StepNeverAborts(cfg, w, events[0]);
      StepKeepsInv(cfg, w, events[0]);
      hide Step, Inv, Calm, AbortConfig.Reachable;
      NeverAborts(cfg, Step(cfg, w, events[0]), events[1..]);
    } else {
      hide Inv;
    }
  }

  // ---- a run in which everything fails ----

  /**
   Where a run is: participant `i` in a phase of its `k`-th turn, and nobody behind it has begun; the attempts and
   failures counted; and what the runner has seen, of how many participants.
   */
  datatype Point = Point(i: nat, phase: Phase, k: nat, attempts: int, failures: int, monitor: Monitor, n: nat)

  ghost predicate Is(w: World, p: Point) {
    && |w.ps| == p.n && w.monitor == p.monitor && !w.flags.Over()
    && w.metrics.attempts == p.attempts && w.metrics.failures == p.failures
    && p.i < p.n && w.ps[p.i].control == Control(p.phase, p.k) && FreshFrom(w.ps, p.i + 1)
  }

  ghost predicate FreshFrom(ps: seq<Participant>, i: nat) {
    forall j :: i <= j < |ps| ==> ps[j].control == Control(Ramp, 0)
  }

  /** A move leads on, whatever the flags say of others. */
  ghost predicate Leads(cfg: Config, p: Point, c: Choice, q: Point) {
    && q.(phase := p.phase, k := p.k, attempts := p.attempts, failures := p.failures) == p
    && forall role: Role, f: Flags :: !f.Over() ==>
         var (s, e) := Next(cfg, role, f, Control(p.phase, p.k), c);
         && s == Control(q.phase, q.k) && e != MarkReady
         && Added(e).attempts == q.attempts - p.attempts && Added(e).failures == q.failures - p.failures
  }

  lemma MoveLeads(cfg: Config, w: World, p: Point, c: Choice, q: Point)
    requires Is(w, p) && Leads(cfg, p, c, q)
    ensures Is(Step(cfg, w, Move(p.i, c)), q)
  {
    hide Next, Added;
  }

  lemma RunOne(cfg: Config, w: World, e: Event)
    ensures Run(cfg, w, [e]) == Step(cfg, w, e)
  {
    hide Step;
    assert [e][1..] == [];
  }

  lemma RunOfNothing(cfg: Config, w: World)
    ensures Run(cfg, w, []) == w
  {
  }

  ghost predicate Comes(cfg: Config, w: World, events: seq<Event>, p: Point) {
    Signal !in events && Is(Run(cfg, w, events), p)
  }

  lemma Onward(cfg: Config, w: World, events: seq<Event>, p: Point, c: Choice, q: Point)
    requires Comes(cfg, w, events, p) && Leads(cfg, p, c, q)
    ensures Comes(cfg, w, events + [Move(p.i, c)], q)
  {
    var e, at := Move(p.i, c), Run(cfg, w, events);
    hide Run, Is, Leads, Step;
    RunConcat(cfg, w, events, [e]);
    RunOne(cfg, at, e);
    MoveLeads(cfg, at, p, c, q);
  }

  const REFUSED := Fault(true, false)

  lemma LeadsToDial(cfg: Config, p: Point)
    requires p.k == 0
    ensures Leads(cfg, p.(phase := Ramp), Go, p.(phase := LoopTop))
  {
  }

  lemma LeadsRound(cfg: Config, p: Point)
    ensures Leads(cfg, p.(phase := LoopTop), Go, p.(phase := Counting))
    ensures Leads(cfg, p.(phase := Counting), Go, p.(phase := Dialing, attempts := p.attempts + 1))
    ensures Leads(cfg, p.(phase := Dialing), Refuse(false), p.(phase := Failed(REFUSED)))
    ensures Leads(cfg, p.(phase := Failed(REFUSED)), Go, p.(phase := FailedTls(REFUSED), failures := p.failures + 1))
    ensures Leads(cfg, p.(phase := FailedTls(REFUSED)), Go, p.(phase := Reporting(REFUSED)))
  {
  }

  lemma LeadsAgain(cfg: Config, p: Point)
    requires p.k < MaxAttempts(cfg)
    ensures Leads(cfg, p.(phase := Reporting(REFUSED)), Go, p.(phase := Deciding(REFUSED)))
    ensures Leads(cfg, p.(phase := Deciding(REFUSED)), Go, p.(phase := Sleeping(REFUSED), k := p.k + 1))
  {
  }

  lemma LeadsWake(cfg: Config, p: Point)
    ensures Leads(cfg, p.(phase := Sleeping(REFUSED)), Go, p.(phase := LoopTop))
  {
  }

  /** From the loop's head to a dial. */
  lemma ComesToDial(cfg: Config, w: World, events: seq<Event>, p: Point) returns (more: seq<Event>)
    requires p.phase == LoopTop && Comes(cfg, w, events, p)
    ensures Comes(cfg, w, more, p.(phase := Dialing, attempts := p.attempts + 1))
  {
    LeadsRound(cfg, p);
    hide Comes, Leads;
    var counting := p.(phase := Counting);
    Onward(cfg, w, events, p, Go, counting);
    more := events + [Move(p.i, Go)];
    Onward(cfg, w, more, counting, Go, p.(phase := Dialing, attempts := p.attempts + 1));
    more := more + [Move(p.i, Go)];
  }

  /** From the start to the first dial. */
  lemma Begins(cfg: Config, w: World, events: seq<Event>, p: Point) returns (more: seq<Event>)
    requires p.phase == Ramp && p.k == 0 && Comes(cfg, w, events, p)
    ensures Comes(cfg, w, more, p.(phase := Dialing, attempts := p.attempts + 1))
  {
    LeadsToDial(cfg, p);
    hide Comes, Leads;
    Onward(cfg, w, events, p, Go, p.(phase := LoopTop));
    more := ComesToDial(cfg, w, events + [Move(p.i, Go)], p.(phase := LoopTop));
  }

  /** From the dial to its failure. */
  lemma ComesToFail(cfg: Config, w: World, events: seq<Event>, p: Point) returns (more: seq<Event>)
    requires p.phase == Dialing && Comes(cfg, w, events, p)
    ensures Comes(cfg, w, more, p.(phase := Reporting(REFUSED), failures := p.failures + 1))
  {
    LeadsRound(cfg, p);
    LeadsRound(cfg, p.(failures := p.failures + 1));
    hide Comes, Leads, REFUSED;
    var failed, counted := p.(phase := Failed(REFUSED)), p.(phase := FailedTls(REFUSED), failures := p.failures + 1);
    Onward(cfg, w, events, p, Refuse(false), failed);
    more := events + [Move(p.i, Refuse(false))];
    Onward(cfg, w, more, failed, Go, counted);
    more := more + [Move(p.i, Go)];
    Onward(cfg, w, more, counted, Go, p.(phase := Reporting(REFUSED), failures := p.failures + 1));
    more := more + [Move(p.i, Go)];
  }

  /** From a failure back to the loop's head. */
  lemma ComesAgain(cfg: Config, w: World, events: seq<Event>, p: Point) returns (more: seq<Event>)
    requires p.phase == Reporting(REFUSED) && p.k < MaxAttempts(cfg) && Comes(cfg, w, events, p)
    ensures Comes(cfg, w, more, p.(phase := LoopTop, k := p.k + 1))
  {
    LeadsAgain(cfg, p);
    LeadsWake(cfg, p.(k := p.k + 1));
    hide Comes, Leads, REFUSED;
    var deciding, sleeping := p.(phase := Deciding(REFUSED)), p.(phase := Sleeping(REFUSED), k := p.k + 1);
    Onward(cfg, w, events, p, Go, deciding);
    more := events + [Move(p.i, Go)];
    Onward(cfg, w, more, deciding, Go, sleeping);
    more := more + [Move(p.i, Go)];
    Onward(cfg, w, more, sleeping, Go, p.(phase := LoopTop, k := p.k + 1));
    more := more + [Move(p.i, Go)];
  }

  /** Every further turn of a participant fails too. */
  lemma {:induction false} FailsToTheEnd(cfg: Config, w: World, events: seq<Event>, p: Point) returns (more: seq<Event>)
    requires p.phase == Reporting(REFUSED) && p.k <= MaxAttempts(cfg) && Comes(cfg, w, events, p)
    ensures var left := MaxAttempts(cfg) - p.k;
      Comes(cfg, w, more,
            p.(k := MaxAttempts(cfg), attempts := p.attempts + left, failures := p.failures + left))
    decreases MaxAttempts(cfg) - p.k
  {
    more := events;
    if p.k < MaxAttempts(cfg) {
      hide Comes, REFUSED, MaxAttempts;
      more := ComesAgain(cfg, w, more, p);
      var top := p.(phase := LoopTop, k := p.k + 1);
      more := ComesToDial(cfg, w, more, top);
      var dialing := top.(phase := Dialing, attempts := top.attempts + 1);
      more := ComesToFail(cfg, w, more, dialing);
      more := FailsToTheEnd(cfg, w, more, dialing.(phase := Reporting(REFUSED), failures := dialing.failures + 1));
    }
  }

  /** The next participant. */
  lemma HandOver(cfg: Config, w: World, events: seq<Event>, p: Point)
    requires Comes(cfg, w, events, p) && p.i + 1 < p.n
    ensures Comes(cfg, w, events, p.(i := p.i + 1, phase := Ramp, k := 0))
  {
    hide Run;
  }

  /** How often those behind the `i`-th of `n` participants may fail. */
  function Behind(cfg: Config, n: nat, i: nat): nat
    requires i < n
  {
    (n - 1 - i) * (MaxAttempts(cfg) + 1)
  }

  lemma BehindUnfolds(cfg: Config, n: nat, i: nat)
    requires i < n
    ensures Behind(cfg, n, i) == if i + 1 == n then 0 else Behind(cfg, n, i + 1) + MaxAttempts(cfg) + 1
  {
    if i + 1 < n {
      OneMore(n - 2 - i, MaxAttempts(cfg) + 1);
    }
  }

  /** The next participant, all its turns refused. */
  function NextFailed(cfg: Config, p: Point): (q: Point)
    ensures q.i == p.i + 1 && q.n == p.n && q.monitor == p.monitor && q.failures == p.failures + MaxAttempts(cfg) + 1
  {
    var most := MaxAttempts(cfg);
    p.(i := p.i + 1, phase := Reporting(REFUSED), k := most,
       attempts := p.attempts + 1 + most, failures := p.failures + 1 + most)
  }

  lemma NextFails(cfg: Config, w: World, events: seq<Event>, p: Point) returns (more: seq<Event>)
    requires Comes(cfg, w, events, p) && p.i + 1 < p.n
    ensures Comes(cfg, w, more, NextFailed(cfg, p))
  {
    HandOver(cfg, w, events, p);
    hide Comes, REFUSED, MaxAttempts;
    more := Begins(cfg, w, events, p.(i := p.i + 1, phase := Ramp, k := 0));
    var dialing := p.(i := p.i + 1, phase := Dialing, k := 0, attempts := p.attempts + 1);
    more := ComesToFail(cfg, w, more, dialing);
    more := FailsToTheEnd(cfg, w, more, dialing.(phase := Reporting(REFUSED), failures := p.failures + 1));
  }

  /** All that is left to participants behind the `i`-th fails. */
  lemma {:induction false} OthersFail(cfg: Config, w: World, events: seq<Event>, p: Point)
    returns (more: seq<Event>, last: Point)
    requires Comes(cfg, w, events, p) && p.i < p.n
    ensures Comes(cfg, w, more, last) && last.monitor == p.monitor
    ensures last.failures == p.failures + Behind(cfg, p.n, p.i)
    decreases p.n - p.i
  {
    BehindUnfolds(cfg, p.n, p.i);
    hide Comes, Behind, NextFailed, MaxAttempts;
    more, last := events, p;
    if p.i + 1 < p.n {
      more := NextFails(cfg, w, events, p);
      more, last := OthersFail(cfg, w, more, NextFailed(cfg, p));
    }
  }

  /** The runner reads one attempt while the first dial is going on; then that fails. */
  lemma FirstIsSeen(cfg: Config, w: World) returns (events: seq<Event>)
    requires Initial(w) && !w.flags.Over() && w.ps != []
    ensures Comes(cfg, w, events, FirstFailure(w))
  {
    var first := Beginning(w);
    BeginningIs(cfg, w);
    hide Comes, Run, Initial, Beginning, REFUSED;
    events := Begins(cfg, w, [], first);
    var dialing := first.(phase := Dialing, attempts := 1);
    Glances(cfg, w, events, dialing);
    events := ComesToFail(cfg, w, events + [Glance], dialing.(monitor := Monitor(Some(1), false)));
  }

  lemma AllFail(cfg: Config, w: World) returns (events: seq<Event>, last: Point)
    requires Initial(w) && !w.flags.Over() && w.ps != []
    ensures Comes(cfg, w, events, last) && last.monitor.seen == Some(1) && last.failures == Most(cfg, w)
  {
    var failed, most := FirstFailure(w), MaxAttempts(cfg);
    MostIs(cfg, w);
    hide Comes, REFUSED, MaxAttempts, Run, Initial, Most;
    events := FirstIsSeen(cfg, w);
    events := FailsToTheEnd(cfg, w, events, failed);
    events, last := OthersFail(cfg, w, events, failed.(k := most, attempts := 1 + most, failures := 1 + most));
  }

  lemma MostIs(cfg: Config, w: World)
    requires w.ps != []
    ensures Most(cfg, w) == 1 + MaxAttempts(cfg) + Behind(cfg, |w.ps|, 0)
  {
    OneMore(|w.ps| - 1, MaxAttempts(cfg) + 1);
  }

  function FirstFailure(w: World): Point {
    Point(0, Reporting(REFUSED), 0, 1, 1, Monitor(Some(1), false), |w.ps|)
  }

  /** The runner has read one attempt; everything fails that may; then it reads the failures. */
  lemma RefusalsAbort(cfg: Config, w: World) returns (events: seq<Event>)
    requires Initial(w) && !w.flags.Over() && w.ps != [] && cfg.abort.Reachable(Most(cfg, w))
    ensures Signal !in events && Run(cfg, w, events).flags.stop && Run(cfg, w, events).monitor.aborted
  {
    hide Comes, Run, Initial, AbortConfig.Reachable, Most;
    var last;
    events, last := AllFail(cfg, w);
    Aborts(cfg, w, events, last);
    events := events + [Inspect(cfg.abort.Samples())];
  }

  function Beginning(w: World): (p: Point)
    ensures p == Point(0, Ramp, 0, 0, 0, Monitor(None, false), |w.ps|)
  {
    Point(0, Ramp, 0, 0, 0, Monitor(None, false), |w.ps|)
  }

  lemma BeginningIs(cfg: Config, w: World)
    requires Initial(w) && !w.flags.Over() && w.ps != []
    ensures Comes(cfg, w, [], Beginning(w))
  {
    RunOfNothing(cfg, w);
    hide Run;
    forall j | 0 <= j < |w.ps|
      ensures w.ps[j].control == Control(Ramp, 0)
    {
      assert w.ps[j] in w.ps;
    }
  }

  lemma Glances(cfg: Config, w: World, events: seq<Event>, p: Point)
    requires Comes(cfg, w, events, p)
    ensures Comes(cfg, w, events + [Glance], p.(monitor := p.monitor.(seen := Some(p.attempts))))
  {
    RunConcat(cfg, w, events, [Glance]);
    RunOne(cfg, Run(cfg, w, events), Glance);
    hide Run;
  }

  lemma Aborts(cfg: Config, w: World, events: seq<Event>, p: Point)
    requires Comes(cfg, w, events, p) && p.monitor.seen == Some(1)
    requires p.failures >= 0 && cfg.abort.Reachable(p.failures)
    ensures var after := Run(cfg, w, events + [Inspect(cfg.abort.Samples())]);
      Signal !in events + [Inspect(cfg.abort.Samples())] && after.flags.stop && after.monitor.aborted
  {
    var look := Inspect(cfg.abort.Samples());
    RunConcat(cfg, w, events, [look]);
    RunOne(cfg, Run(cfg, w, events), look);
    hide Run, Ratio;
    RatioIsBounded(p.failures, 1, p.failures);
  }
}
