/** What holds in every state of every run of N participants, whatever the schedule. */
module Interleavings {
  import opened Wrappers
  import opened Marker
  import opened Metrics
  import opened Participants
  import opened Lifecycles

  /** The shared counters are the sum of what the participants added to them. */
  function Total(ps: seq<Participant>): ConnectionCounters {
    if ps == [] then NO_CONNECTIONS else ps[0].history.tally.Plus(Total(ps[1..]))
  }

  lemma {:induction false} TotalAfterMove(ps: seq<Participant>, i: nat, t: Turn)
    requires i < |ps|
    ensures Total(ps[i := Moved(ps[i], t)]) == Total(ps).Plus(Added(t.1))
    decreases |ps|
  {
    var after := ps[i := Moved(ps[i], t)];
    if i == 0 {
      assert after[1..] == ps[1..];
    } else {
      assert after[1..] == ps[1..][i - 1 := Moved(ps[i], t)];
      TotalAfterMove(ps[1..], i - 1, t);
    }
  }

  /** A participant has announced a connection. */
  predicate HasConnected(p: Participant) {
    Connected in p.history.trace
  }

  ghost predicate SomeConnected(ps: seq<Participant>, id: Bytes) {
    exists j :: 0 <= j < |ps| && ps[j].id == id && HasConnected(ps[j])
  }

  /** The ready set holds required participants that have connected. */
  ghost predicate ReadyIsEarned(cfg: Config, w: World) {
    && w.flags.ready <= cfg.required
    && forall id :: id in w.flags.ready ==> SomeConnected(w.ps, id)
  }

  /** Behind the barrier means the barrier is open, and a required participant never waits for itself. */
  ghost predicate BarrierHolds(cfg: Config, f: Flags, p: Participant) {
    && (p.control.phase.Sending? || p.history.produced > 0 ==> cfg.required <= f.ready)
    && (PastMark(p.control.phase) && p.id in cfg.required ==> p.id in f.ready)
  }

  ghost predicate Inv(cfg: Config, w: World) {
    && w.metrics == Total(w.ps)
    && ReadyIsEarned(cfg, w)
    && AllHold(cfg, w.flags, w.ps)
  }

  ghost predicate Holds(cfg: Config, f: Flags, p: Participant) {
    Local(cfg, p) && BarrierHolds(cfg, f, p)
  }

  ghost predicate AllHold(cfg: Config, f: Flags, ps: seq<Participant>) {
    forall j :: 0 <= j < |ps| ==> Holds(cfg, f, ps[j])
  }

  lemma {:induction false} TotalOfNothing(ps: seq<Participant>)
    requires forall p :: p in ps ==> p.history == NO_HISTORY
    ensures Total(ps) == NO_CONNECTIONS
    decreases |ps|
  {
    if ps != [] {
      assert ps[0] in ps;
      TotalOfNothing(ps[1..]);
    }
  }

  lemma StartHolds(cfg: Config, f: Flags, p: Participant)
    requires p.control == Control(Ramp, 0) && p.history == NO_HISTORY
    ensures Holds(cfg, f, p)
  {
    StartIsLocal(cfg, p);
    hide Local;
  }

  lemma AllStartHold(cfg: Config, w: World)
    requires Initial(w)
    ensures AllHold(cfg, w.flags, w.ps)
  {
    hide Holds;
    forall j | 0 <= j < |w.ps|
      ensures Holds(cfg, w.flags, w.ps[j])
    {
      assert w.ps[j] in w.ps;
      StartHolds(cfg, w.flags, w.ps[j]);
    }
  }

  lemma InitialInv(cfg: Config, w: World)
    requires Initial(w)
    ensures Inv(cfg, w)
  {
    TotalOfNothing(w.ps);
    AllStartHold(cfg, w);
    hide AllHold, Total;
  }

  /** The mover: it passes the barrier only when open, and marks itself before it waits. */
  lemma MoverHolds(cfg: Config, f: Flags, p: Participant, c: Choice)
    requires BarrierHolds(cfg, f, p)
    ensures var t := StepOf(cfg, f, p, c);
      BarrierHolds(cfg, Marked(cfg, f, p.id, t.1), Moved(p, t))
  {
    NextIsFair(cfg, p.role, f, p.control, c);
    hide Next, Counted, Owed, Emits, Bounded, PastMark, Accounts;
  }

  /** A mark is made behind the announcements. */
  lemma MarkIsEarned(cfg: Config, f: Flags, p: Participant, c: Choice)
    requires Traces(p)
    ensures StepOf(cfg, f, p, c).1 == MarkReady ==> HasConnected(p)
    ensures HasConnected(p) ==> HasConnected(Moved(p, StepOf(cfg, f, p, c)))
  {
    NextIsFair(cfg, p.role, f, p.control, c);
    hide Next, Counted, Owed, Bounded, Accounts, Open, Emitted, Triples, Gated;
  }

  lemma ReadyIsEarnedKept(cfg: Config, w: World, i: nat, c: Choice)
    requires ReadyIsEarned(cfg, w) && i < |w.ps| && Traces(w.ps[i])
    ensures ReadyIsEarned(cfg, Step(cfg, w, Move(i, c)))
  {
    var after, p := Step(cfg, w, Move(i, c)), w.ps[i];
    MarkIsEarned(cfg, w.flags, p, c);
    hide StepOf, HasConnected, Moved, Total, Traces;
    assert after.ps[i] == Moved(p, StepOf(cfg, w.flags, p, c));
    forall id | id in after.flags.ready
      ensures SomeConnected(after.ps, id)
    {
      if id in w.flags.ready {
        var j :| 0 <= j < |w.ps| && w.ps[j].id == id && HasConnected(w.ps[j]);
        SameId(p, StepOf(cfg, w.flags, p, c));
        assert after.ps[j].id == id && HasConnected(after.ps[j]);
      } else {
        SameId(p, StepOf(cfg, w.flags, p, c));
        assert after.ps[i].id == id && HasConnected(after.ps[i]);
      }
    }
  }

  lemma SameId(p: Participant, t: Turn)
    ensures Moved(p, t).id == p.id
  {
  }

  /** Flags only ever get set, so a participant that does not move keeps what it had. */
  lemma OthersHold(cfg: Config, f: Flags, g: Flags, p: Participant)
    requires Holds(cfg, f, p) && f.ready <= g.ready
    ensures Holds(cfg, g, p)
  {
    hide Local, PastMark;
  }

  lemma AllHoldAfterMove(cfg: Config, w: World, i: nat, c: Choice)
    requires AllHold(cfg, w.flags, w.ps) && i < |w.ps|
    ensures AllHold(cfg, Step(cfg, w, Move(i, c)).flags, Step(cfg, w, Move(i, c)).ps)
  {
    var after, p := Step(cfg, w, Move(i, c)), w.ps[i];
    assert Holds(cfg, w.flags, p);
    LocalKept(cfg, w.flags, p, c);
    MoverHolds(cfg, w.flags, p, c);
    hide StepOf, Moved, Local, BarrierHolds;
    forall j | 0 <= j < |after.ps|
      ensures Holds(cfg, after.flags, after.ps[j])
    {
      if j != i {
        OthersHold(cfg, w.flags, after.flags, w.ps[j]);
      }
    }
  }

  lemma MoveKeepsInv(cfg: Config, w: World, i: nat, c: Choice)
    requires Inv(cfg, w) && i < |w.ps|
    ensures Inv(cfg, Step(cfg, w, Move(i, c)))
  {
    AllHoldAfterMove(cfg, w, i, c);
    assert Traces(w.ps[i]) by {
      assert Holds(cfg, w.flags, w.ps[i]);
    }
    TotalAfterMove(w.ps, i, StepOf(cfg, w.flags, w.ps[i], c));
    ReadyIsEarnedKept(cfg, w, i, c);
    hide StepOf, Moved, Total, ReadyIsEarned, AllHold, Marked;
  }

  lemma FlagsKeepInv(cfg: Config, w: World, f: Flags, watch: Watch, monitor: Monitor)
    requires Inv(cfg, w) && f.ready == w.flags.ready
    ensures Inv(cfg, w.(flags := f, watch := watch, monitor := monitor))
  {
    hide Total, Holds, SomeConnected;
    forall j | 0 <= j < |w.ps|
      ensures Holds(cfg, f, w.ps[j])
    {
      OthersHold(cfg, w.flags, f, w.ps[j]);
    }
  }

  lemma StepKeepsInv(cfg: Config, w: World, e: Event)
    requires Inv(cfg, w)
    ensures Inv(cfg, Step(cfg, w, e))
    ensures w.flags.ready <= Step(cfg, w, e).flags.ready && |Step(cfg, w, e).ps| == |w.ps|
  {
    hide Inv, StepOf, Moved;
    match e
    case Supervise(_) | Glance | Inspect(_) | Signal | PassDeadline | PassBarrierDeadline =>
      FlagsKeepInv(cfg, w, Step(cfg, w, e).flags, Step(cfg, w, e).watch, Step(cfg, w, e).monitor);
    case Move(i, c) =>
      if i < |w.ps| {
        MoveKeepsInv(cfg, w, i, c);
      }
  }

  /** In every state of every run. */
  lemma {:induction false} RunKeepsInv(cfg: Config, w: World, events: seq<Event>)
    requires Inv(cfg, w)
    ensures Inv(cfg, Run(cfg, w, events))
    ensures w.flags.ready <= Run(cfg, w, events).flags.ready && |Run(cfg, w, events).ps| == |w.ps|
    decreases |events|
  {
    hide Inv, Step;
    if events != [] {
      StepKeepsInv(cfg, w, events[0]);
      RunKeepsInv(cfg, Step(cfg, w, events[0]), events[1..]);
    }
  }

  lemma {:induction false} RunConcat(cfg: Config, w: World, a: seq<Event>, b: seq<Event>)
    ensures Run(cfg, w, a + b) == Run(cfg, Run(cfg, w, a), b)
    decreases |a|
  {
    if a == [] {
      assert a + b == b;
    } else {
      assert (a + b)[1..] == a[1..] + b;
      hide Step;
      RunConcat(cfg, Step(cfg, w, a[0]), a[1..], b);
    }
  }

  lemma {:induction false} NamesStay(cfg: Config, w: World, events: seq<Event>)
    ensures var after := Run(cfg, w, events);
      |after.ps| == |w.ps| && forall i :: 0 <= i < |w.ps| ==> after.ps[i].id == w.ps[i].id
    decreases |events|
  {
    if events != [] {
      NamesStayOnce(cfg, w, events[0]);
      hide Step;
      NamesStay(cfg, Step(cfg, w, events[0]), events[1..]);
    }
  }

  lemma NamesStayOnce(cfg: Config, w: World, e: Event)
    ensures var after := Step(cfg, w, e);
      |after.ps| == |w.ps| && forall i :: 0 <= i < |w.ps| ==> after.ps[i].id == w.ps[i].id
  {
    hide StepOf;
  }

  // ---- what that says of the shared state ----

  function Count(ps: seq<Participant>, f: Participant -> nat): nat {
    if ps == [] then 0 else f(ps[0]) + Count(ps[1..], f)
  }

  function IsActive(p: Participant): nat { Active(p.control.phase) }

  function IsInFlight(p: Participant): nat { InFlight(p.control.phase) }

  function Refused(p: Participant): nat { p.history.refused }

  function Cancelled(p: Participant): nat { p.history.cancelled }

  predicate AllDone(ps: seq<Participant>) {
    forall p :: p in ps ==> p.control.phase.Done?
  }

  /** What the sum of the participants' parts satisfies. */
  ghost predicate Balanced(cfg: Config, ps: seq<Participant>, t: ConnectionCounters) {
    && t.active == Count(ps, IsActive)
    && t.attempts == t.successes + Count(ps, Refused) + Count(ps, Cancelled) + Count(ps, IsInFlight)
    && t.attempts <= |ps| * (MaxAttempts(cfg) + 1)
    && 0 <= t.tlsFailures <= t.failures <= t.attempts
    && 0 <= t.reconnectFailures <= t.failures
    && 0 <= t.reconnects <= t.successes
    && t.active <= |ps|
  }

  lemma OneMore(n: nat, k: nat)
    ensures (n + 1) * k == n * k + k
  {
  }

  lemma OneIsBalanced(cfg: Config, p: Participant)
    requires Local(cfg, p)
    ensures var t := p.history.tally;
      && t.active == IsActive(p) <= 1
      && t.attempts == t.successes + Refused(p) + Cancelled(p) + IsInFlight(p)
      && t.attempts <= MaxAttempts(cfg) + 1
      && 0 <= t.tlsFailures <= t.failures <= t.attempts
      && 0 <= t.reconnectFailures <= t.failures
      && 0 <= t.reconnects <= t.successes
  {
  }

  lemma BalancedAdds(cfg: Config, ps: seq<Participant>, t: ConnectionCounters)
    requires ps != [] && Local(cfg, ps[0]) && Balanced(cfg, ps[1..], t)
    ensures Balanced(cfg, ps, ps[0].history.tally.Plus(t))
  {
    OneIsBalanced(cfg, ps[0]);
    OneMore(|ps| - 1, MaxAttempts(cfg) + 1);
    hide Local, IsActive, IsInFlight, Refused, Cancelled, MaxAttempts;
  }

  lemma {:induction false} TotalIsBalanced(cfg: Config, f: Flags, ps: seq<Participant>)
    requires AllHold(cfg, f, ps)
    ensures Balanced(cfg, ps, Total(ps))
    decreases |ps|
  {
    if ps != [] {
      assert Holds(cfg, f, ps[0]);
      assert forall j :: 0 <= j < |ps[1..]| ==> ps[1..][j] == ps[j + 1];
      TotalIsBalanced(cfg, f, ps[1..]);
      hide Local, Balanced;
      BalancedAdds(cfg, ps, Total(ps[1..]));
    }
  }

  function Broken(p: Participant): nat { p.history.broken }

  function FirstBreaks(p: Participant): nat { p.history.firstBreaks }

  function FirstSuccesses(p: Participant): nat { p.history.firstSuccesses }

  function TlsFaults(p: Participant): nat { p.history.tlsFaults }

  /** With every participant finished, each counter is the number of what it counts. */
  ghost predicate Exact(cfg: Config, ps: seq<Participant>, t: ConnectionCounters) {
    && t.active == 0
    && t.attempts == t.successes + Count(ps, Refused) + Count(ps, Cancelled)
    && t.failures == Count(ps, Refused) + Count(ps, Broken)
    && t.tlsFailures == Count(ps, TlsFaults)
    && t.reconnects == t.successes - Count(ps, FirstSuccesses)
    && t.reconnectFailures ==
       Count(ps, Broken) - Count(ps, FirstBreaks) + (if cfg.reconnect then Count(ps, Refused) else 0)
  }

  lemma OneIsExact(cfg: Config, p: Participant)
    requires Local(cfg, p) && p.control.phase.Done?
    ensures var t := p.history.tally;
      && t.active == 0
      && t.attempts == t.successes + Refused(p) + Cancelled(p)
      && t.failures == Refused(p) + Broken(p)
      && t.tlsFailures == TlsFaults(p)
      && t.reconnects == t.successes - FirstSuccesses(p)
      && t.reconnectFailures == Broken(p) - FirstBreaks(p) + (if cfg.reconnect then Refused(p) else 0)
  {
  }

  lemma ExactAdds(cfg: Config, ps: seq<Participant>, t: ConnectionCounters)
    requires ps != [] && Local(cfg, ps[0]) && ps[0].control.phase.Done? && Exact(cfg, ps[1..], t)
    ensures Exact(cfg, ps, ps[0].history.tally.Plus(t))
  {
    OneIsExact(cfg, ps[0]);
    hide Local, Refused, Cancelled, Broken, FirstBreaks, FirstSuccesses, TlsFaults;
  }

  lemma {:induction false} TotalIsExact(cfg: Config, f: Flags, ps: seq<Participant>)
    requires AllHold(cfg, f, ps) && AllDone(ps)
    ensures Exact(cfg, ps, Total(ps))
    decreases |ps|
  {
    if ps != [] {
      assert Holds(cfg, f, ps[0]) && ps[0] in ps;
      assert forall j :: 0 <= j < |ps[1..]| ==> ps[1..][j] == ps[j + 1];
      assert forall p :: p in ps[1..] ==> p in ps;
      TotalIsExact(cfg, f, ps[1..]);
      hide Local, Exact;
      ExactAdds(cfg, ps, Total(ps[1..]));
    }
  }

  lemma {:induction false} ActiveIsCounted(ps: seq<Participant>, i: nat)
    requires i < |ps| && IsActive(ps[i]) == 1
    ensures Count(ps, IsActive) >= 1
    decreases |ps|
  {
    if i > 0 {
      ActiveIsCounted(ps[1..], i - 1);
    }
  }

  /**
   The shared counters in every state of every run: `active_connections` is the number of connected
   participants, attempts split into successes, refusals, cancellations and dials in flight, and every
   other counter stays within the attempts.
   */
  lemma {:induction false} CountersAgree(cfg: Config, w: World, events: seq<Event>)
    requires Initial(w)
    ensures var after := Run(cfg, w, events); Balanced(cfg, after.ps, after.metrics)
  {
    InitialInv(cfg, w);
    RunKeepsInv(cfg, w, events);
    var after := Run(cfg, w, events);
    hide Run, ReadyIsEarned, AllHold, Balanced;
    TotalIsBalanced(cfg, after.flags, after.ps);
  }

  /**
   When all have finished nothing is active; attempts are the successes, refusals and cancellations;
   failures are the refusals and broken sessions; reconnects are the successes after the first turn; and
   failed reconnects are the sessions broken after the first turn and, with reconnect on, all refusals.
   */
  lemma CountersAreExactAtTheEnd(cfg: Config, w: World, events: seq<Event>)
    requires Initial(w) && AllDone(Run(cfg, w, events).ps)
    ensures var after := Run(cfg, w, events); Exact(cfg, after.ps, after.metrics)
  {
    InitialInv(cfg, w);
    RunKeepsInv(cfg, w, events);
    var after := Run(cfg, w, events);
    hide Run, ReadyIsEarned, AllHold, Exact;
    TotalIsExact(cfg, after.flags, after.ps);
  }

  /** The decrement of `active_connections` never underflows. */
  lemma {:induction false} DropNeverUnderflows(cfg: Config, w: World, events: seq<Event>, i: nat, c: Choice)
    requires Initial(w) && i < |Run(cfg, w, events).ps|
    ensures var at := Run(cfg, w, events);
      StepOf(cfg, at.flags, at.ps[i], c).1 == DropActive ==> at.metrics.active >= 1
  {
    CountersAgree(cfg, w, events);
    var at := Run(cfg, w, events);
    NextIsFair(cfg, at.ps[i].role, at.flags, at.ps[i].control, c);
    hide Run, Next;
    if StepOf(cfg, at.flags, at.ps[i], c).1 == DropActive {
      ActiveIsCounted(at.ps, i);
    }
  }

  /**
   The barrier, in every state of every run: an event has been produced, or a participant is in its send
   loop, only once every required participant has connected and is in the ready set.
   */
  lemma {:induction false} NoEventBeforeAllReady(cfg: Config, w: World, events: seq<Event>, i: nat)
    requires Initial(w) && i < |Run(cfg, w, events).ps|
    ensures var after := Run(cfg, w, events); var p := after.ps[i];
      p.control.phase.Sending? || p.history.produced > 0 ==>
        after.flags.ready == cfg.required && forall id :: id in cfg.required ==> SomeConnected(after.ps, id)
  {
    InitialInv(cfg, w);
    RunKeepsInv(cfg, w, events);
    hide Run, Total, Local, SomeConnected;
    assert Holds(cfg, Run(cfg, w, events).flags, Run(cfg, w, events).ps[i]);
  }

  /** A required participant at the barrier is in the ready set: it never waits for itself. */
  lemma {:induction false} NeverWaitsForItself(cfg: Config, w: World, events: seq<Event>, i: nat)
    requires Initial(w) && i < |Run(cfg, w, events).ps|
    ensures var after := Run(cfg, w, events); var p := after.ps[i];
      (p.control.phase.Checking? || p.control.phase.Waiting?) && p.id in cfg.required ==> p.id in after.flags.ready
    ensures Run(cfg, w, events).flags.ready <= cfg.required
  {
    InitialInv(cfg, w);
    RunKeepsInv(cfg, w, events);
    hide Run, Total, Local, SomeConnected;
    assert Holds(cfg, Run(cfg, w, events).flags, Run(cfg, w, events).ps[i]);
  }

  /** Each participant of a run: its dials, its verdict and its trace. */
  lemma {:induction false} EachParticipant(cfg: Config, w: World, events: seq<Event>, i: nat)
    requires Initial(w) && i < |Run(cfg, w, events).ps|
    ensures var p := Run(cfg, w, events).ps[i]; var t := p.history.tally;
      && 0 <= t.reconnects <= t.successes <= t.attempts <= MaxAttempts(cfg) + 1
      && t.tlsFailures <= t.failures <= t.attempts && t.reconnectFailures <= t.failures
      && 0 <= t.active <= 1
      && (p.control.phase.Done? ==> p.history.trace == Triples(t.successes))
      && (p.control.phase.Done? && p.control.phase.exit == ReconnectExhausted ==>
            t.attempts == t.failures == cfg.maxAttempts + 1)
  {
    InitialInv(cfg, w);
    RunKeepsInv(cfg, w, events);
    hide Run, Total, ReadyIsEarned;
    var p := Run(cfg, w, events).ps[i];
    assert Holds(cfg, Run(cfg, w, events).flags, p);
    hide Local, BarrierHolds;
    AttemptsAreBounded(cfg, p);
    if p.control.phase.Done? {
      FinishedTrace(cfg, p);
      if p.control.phase.exit == ReconnectExhausted {
        ExhaustedMeansAllFailed(cfg, p);
      }
    }
  }
}
