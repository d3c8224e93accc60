/** Runs that show what the participants' machine does not promise. */
module Witnesses {
  import opened Wrappers
  import opened Marker
  import opened Metrics
  import opened Thresholds
  import opened Participants
  import opened Lifecycles
  import opened Interleavings
  import opened Cancellation
  import opened Alarm
  import opened Supervision

  /** One participant's moves, by the choices it is given. */
  function Moves(i: nat, choices: seq<Choice>): seq<Event> {
    seq(|choices|, k requires 0 <= k < |choices| => Move(i, choices[k]))
  }

  /** Where those moves take it, and the flags, if nothing else happens. */
  function Alone(cfg: Config, p: Participant, f: Flags, choices: seq<Choice>): (Participant, Flags)
    decreases |choices|
  {
    if choices == [] then (p, f)
    else
      var t := StepOf(cfg, f, p, choices[0]);
      Alone(cfg, Moved(p, t), Marked(cfg, f, p.id, t.1), choices[1..])
  }

  lemma {:induction false} MovesAreAlone(cfg: Config, w: World, i: nat, choices: seq<Choice>)
    requires i < |w.ps|
    ensures var after := Run(cfg, w, Moves(i, choices)); var (p, f) := Alone(cfg, w.ps[i], w.flags, choices);
      after.flags == f && after.watch == w.watch && after.monitor == w.monitor && after.ps == w.ps[i := p]
    decreases |choices|
  {
    if choices == [] {
      assert w.ps[i := w.ps[i]] == w.ps;
    } else {
      assert Moves(i, choices)[1..] == Moves(i, choices[1..]);
      hide StepOf, Moved, Marked;
      MovesAreAlone(cfg, Step(cfg, w, Move(i, choices[0])), i, choices[1..]);
    }
  }

  lemma {:induction false} AloneConcat(cfg: Config, p: Participant, f: Flags, a: seq<Choice>, b: seq<Choice>)
    ensures Alone(cfg, p, f, a + b) == (var (q, g) := Alone(cfg, p, f, a); Alone(cfg, q, g, b))
    decreases |a|
  {
    if a == [] {
      assert a + b == b;
    } else {
      assert (a + b)[1..] == a[1..] + b;
      hide StepOf, Moved, Marked;
      var t := StepOf(cfg, f, p, a[0]);
      AloneConcat(cfg, Moved(p, t), Marked(cfg, f, p.id, t.1), a[1..], b);
    }
  }

  lemma One(cfg: Config, p: Participant, f: Flags, c: Choice)
    ensures var t := StepOf(cfg, f, p, c);
      Alone(cfg, p, f, [c]) == (Moved(p, t), Marked(cfg, f, p.id, t.1))
  {
    assert [c][1..] == [];
  }

  /** One more move. */
  lemma Then(cfg: Config, p: Participant, f: Flags, choices: seq<Choice>, c: Choice)
    ensures var (q, g) := Alone(cfg, p, f, choices); var t := StepOf(cfg, g, q, c);
      Alone(cfg, p, f, choices + [c]) == (Moved(q, t), Marked(cfg, g, p.id, t.1)) && q.id == p.id && q.role == p.role
  {
    AloneConcat(cfg, p, f, choices, [c]);
    AloneKeepsName(cfg, p, f, choices);
    hide StepOf, Moved, Marked;
    var (q, g) := Alone(cfg, p, f, choices);
    One(cfg, q, g, c);
  }

  lemma {:induction false} AloneKeepsName(cfg: Config, p: Participant, f: Flags, choices: seq<Choice>)
    ensures Alone(cfg, p, f, choices).0.id == p.id && Alone(cfg, p, f, choices).0.role == p.role
    decreases |choices|
  {
    if choices != [] {
      var t := StepOf(cfg, f, p, choices[0]);
      hide StepOf;
      AloneKeepsName(cfg, Moved(p, t), Marked(cfg, f, p.id, t.1), choices[1..]);
    }
  }

  /** Where a participant stands on its first turn, what it has produced, and the flags. */
  datatype Spot = Spot(phase: Phase, produced: int, flags: Flags)

  ghost predicate Stands(cfg: Config, p: Participant, f: Flags, choices: seq<Choice>, spot: Spot) {
    var (q, g) := Alone(cfg, p, f, choices);
    q.control == Control(spot.phase, 0) && q.history.produced == spot.produced && g == spot.flags
  }

  /** One move leads from `a` to `b`. */
  ghost predicate Leads(cfg: Config, p: Participant, a: Spot, c: Choice, b: Spot) {
    var (n, e) := Next(cfg, p.role, a.flags, Control(a.phase, 0), c);
    n == Control(b.phase, 0) && b.produced == a.produced + If(e == Produce) && b.flags == Marked(cfg, a.flags, p.id, e)
  }

  lemma Onward(cfg: Config, p: Participant, f: Flags, choices: seq<Choice>, a: Spot, c: Choice, b: Spot)
    requires Stands(cfg, p, f, choices, a) && Leads(cfg, p, a, c, b)
    ensures Stands(cfg, p, f, choices + [c], b)
  {
    Then(cfg, p, f, choices, c);
    hide Next, Alone, Marked;
  }

  lemma StartsAtRamp(cfg: Config, p: Participant, f: Flags)
    requires Starts(p)
    ensures Stands(cfg, p, f, [], Spot(Ramp, 0, f))
  {
  }

  predicate Starts(p: Participant) { p.control == Control(Ramp, 0) && p.history == NO_HISTORY && p.role == SendOnly }

  const DIAL: seq<Choice> := [] + [Go] + [Go] + [Go]

  lemma LeadsToDial(cfg: Config, p: Participant, f: Flags)
    requires !f.Over()
    ensures Leads(cfg, p, Spot(Ramp, 0, f), Go, Spot(LoopTop, 0, f))
    ensures Leads(cfg, p, Spot(LoopTop, 0, f), Go, Spot(Counting, 0, f))
    ensures Leads(cfg, p, Spot(Counting, 0, f), Go, Spot(Dialing, 0, f))
  {
  }

  lemma Dials(cfg: Config, p: Participant, f: Flags)
    requires Starts(p) && !f.Over()
    ensures Stands(cfg, p, f, DIAL, Spot(Dialing, 0, f))
  {
    LeadsToDial(cfg, p, f);
    StartsAtRamp(cfg, p, f);
    hide Stands, Leads;
    Onward(cfg, p, f, [], Spot(Ramp, 0, f), Go, Spot(LoopTop, 0, f));
    Onward(cfg, p, f, [] + [Go], Spot(LoopTop, 0, f), Go, Spot(Counting, 0, f));
    Onward(cfg, p, f, [] + [Go] + [Go], Spot(Counting, 0, f), Go, Spot(Dialing, 0, f));
  }

  function Connects(): seq<Choice> { DIAL + [Connect] + [Go] + [Go] + [Go] }

  lemma LeadsToConnected(cfg: Config, p: Participant, f: Flags)
    ensures Leads(cfg, p, Spot(Dialing, 0, f), Connect, Spot(Opened, 0, f))
    ensures Leads(cfg, p, Spot(Opened, 0, f), Go, Spot(Activating, 0, f))
    ensures Leads(cfg, p, Spot(Activating, 0, f), Go, Spot(Recovering, 0, f))
    ensures Leads(cfg, p, Spot(Recovering, 0, f), Go, Spot(AnnouncingConnected, 0, f))
  {
  }

  lemma ComesToConnected(cfg: Config, p: Participant, f: Flags)
    requires Starts(p) && !f.Over()
    ensures Stands(cfg, p, f, Connects(), Spot(AnnouncingConnected, 0, f))
  {
    Dials(cfg, p, f);
    LeadsToConnected(cfg, p, f);
    hide Stands, Leads, DIAL;
    Onward(cfg, p, f, DIAL, Spot(Dialing, 0, f), Connect, Spot(Opened, 0, f));
    Onward(cfg, p, f, DIAL + [Connect], Spot(Opened, 0, f), Go, Spot(Activating, 0, f));
    Onward(cfg, p, f, DIAL + [Connect] + [Go], Spot(Activating, 0, f), Go, Spot(Recovering, 0, f));
    Onward(cfg, p, f, DIAL + [Connect] + [Go] + [Go], Spot(Recovering, 0, f), Go, Spot(AnnouncingConnected, 0, f));
  }

  function ToBarrier(): seq<Choice> { Connects() + [Go] + [Go] + [Go] + [Go] }

  lemma LeadsToBarrier(cfg: Config, p: Participant, f: Flags, g: Flags)
    requires p.role == SendOnly && g == Marked(cfg, f, p.id, MarkReady)
    ensures Leads(cfg, p, Spot(AnnouncingConnected, 0, f), Go, Spot(AnnouncingReady, 0, f))
    ensures Leads(cfg, p, Spot(AnnouncingReady, 0, f), Go, Spot(Marking, 0, f))
    ensures Leads(cfg, p, Spot(Marking, 0, f), Go, Spot(Starting, 0, g))
    ensures Leads(cfg, p, Spot(Starting, 0, g), Go, Spot(Checking, 0, g))
  {
  }

  /** A sender comes to the barrier, its own mark made. */
  lemma ComesToBarrier(cfg: Config, p: Participant, f: Flags)
    requires Starts(p) && !f.Over()
    ensures Stands(cfg, p, f, ToBarrier(), Spot(Checking, 0, Marked(cfg, f, p.id, MarkReady)))
  {
    var g, a := Marked(cfg, f, p.id, MarkReady), Connects();
    ComesToConnected(cfg, p, f);
    LeadsToBarrier(cfg, p, f, g);
    hide Stands, Leads, Connects, Marked;
    Onward(cfg, p, f, a, Spot(AnnouncingConnected, 0, f), Go, Spot(AnnouncingReady, 0, f));
    Onward(cfg, p, f, a + [Go], Spot(AnnouncingReady, 0, f), Go, Spot(Marking, 0, f));
    Onward(cfg, p, f, a + [Go] + [Go], Spot(Marking, 0, f), Go, Spot(Starting, 0, g));
    Onward(cfg, p, f, a + [Go] + [Go] + [Go], Spot(Starting, 0, g), Go, Spot(Checking, 0, g));
  }

  // ---- a failure does not stop the others ----

  const REFUSAL := Fault(true, false)

  function RefusedAtOnce(): seq<Choice> { DIAL + [Refuse(false)] + [Go] + [Go] + [Go] }

  lemma LeadsToFailure(cfg: Config, p: Participant, f: Flags)
    requires !cfg.reconnect
    ensures Leads(cfg, p, Spot(Dialing, 0, f), Refuse(false), Spot(Failed(REFUSAL), 0, f))
    ensures Leads(cfg, p, Spot(Failed(REFUSAL), 0, f), Go, Spot(FailedTls(REFUSAL), 0, f))
    ensures Leads(cfg, p, Spot(FailedTls(REFUSAL), 0, f), Go, Spot(Reporting(REFUSAL), 0, f))
    ensures Leads(cfg, p, Spot(Reporting(REFUSAL), 0, f), Go, Spot(Done(FailedWith(REFUSAL), AttemptFailed), 0, f))
  {
  }

  lemma FailsAtOnce(cfg: Config, p: Participant, f: Flags)
    requires Starts(p) && !f.Over() && !cfg.reconnect
    ensures Stands(cfg, p, f, RefusedAtOnce(), Spot(Done(FailedWith(REFUSAL), AttemptFailed), 0, f))
  {
    var d := DIAL + [Refuse(false)];
    Dials(cfg, p, f);
    LeadsToFailure(cfg, p, f);
    hide Stands, Leads, DIAL, REFUSAL;
    Onward(cfg, p, f, DIAL, Spot(Dialing, 0, f), Refuse(false), Spot(Failed(REFUSAL), 0, f));
    Onward(cfg, p, f, d, Spot(Failed(REFUSAL), 0, f), Go, Spot(FailedTls(REFUSAL), 0, f));
    Onward(cfg, p, f, d + [Go], Spot(FailedTls(REFUSAL), 0, f), Go, Spot(Reporting(REFUSAL), 0, f));
    Onward(cfg, p, f, d + [Go] + [Go], Spot(Reporting(REFUSAL), 0, f), Go,
           Spot(Done(FailedWith(REFUSAL), AttemptFailed), 0, f));
  }

  function Sends(): seq<Choice> { ToBarrier() + [Go] + [Go] }

  lemma LeadsToEvent(cfg: Config, p: Participant, f: Flags)
    requires cfg.required == {}
    ensures Marked(cfg, f, p.id, MarkReady) == f
    ensures Leads(cfg, p, Spot(Checking, 0, f), Go, Spot(Sending, 0, f))
    ensures Leads(cfg, p, Spot(Sending, 0, f), Go, Spot(Sending, 1, f))
  {
  }

  lemma SendsOne(cfg: Config, p: Participant, f: Flags)
    requires Starts(p) && !f.Over() && cfg.required == {}
    ensures Stands(cfg, p, f, Sends(), Spot(Sending, 1, f))
  {
    ComesToBarrier(cfg, p, f);
    LeadsToEvent(cfg, p, f);
    hide Stands, Leads, ToBarrier, Marked;
    Onward(cfg, p, f, ToBarrier(), Spot(Checking, 0, f), Go, Spot(Sending, 0, f));
    Onward(cfg, p, f, ToBarrier() + [Go], Spot(Sending, 0, f), Go, Spot(Sending, 1, f));
  }

  const CALM := Flags({}, false, false, false)

  function Fresh(id: Bytes): Participant { Participant(id, SendOnly, Control(Ramp, 0), NO_HISTORY) }

  function Two(): World { World(NO_CONNECTIONS, CALM, Looking, Monitor(None, false), [Fresh("a"), Fresh("b")]) }

  /** In turn: the moves of the one, then the moves of the other. */
  lemma InTurn(cfg: Config, w: World, first: seq<Choice>, second: seq<Choice>)
    requires |w.ps| == 2
    ensures var before := Run(cfg, w, Moves(0, first)); var after := Run(cfg, before, Moves(1, second));
      && |before.ps| == |after.ps| == 2
      && (before.ps[0], before.flags) == Alone(cfg, w.ps[0], w.flags, first) && before.ps[1] == w.ps[1]
      && (after.ps[1], after.flags) == Alone(cfg, w.ps[1], before.flags, second) && after.ps[0] == before.ps[0]
  {
    hide Alone, Moves, Run;
    MovesAreAlone(cfg, w, 0, first);
    MovesAreAlone(cfg, Run(cfg, w, Moves(0, first)), 1, second);
  }

  lemma TwoAre()
    ensures Initial(Two()) && Two().ps == [Fresh("a"), Fresh("b")] && Two().flags == CALM && Two().watch == Looking && Two().monitor == Monitor(None, false)
    ensures Starts(Fresh("a")) && Starts(Fresh("b")) && Fresh("a").id == "a" && Fresh("b").id == "b"
    ensures Fresh("b").history.trace == [] && Fresh("b").control.phase == Ramp
    ensures !CALM.Over() && CALM.ready == {} && !CALM.barrierOver
  {
  }

  /** No abort threshold. */
  const NO_ABORT := AbortConfig(None, None)

  /** No reconnect, no barrier. */
  function Plain(): (cfg: Config)
    ensures !cfg.reconnect && cfg.required == {}
  {
    Config(false, 0, {}, false, false, false, NO_ABORT)
  }

  /** Of two participants the first fails for good; after that the second connects and produces an event. */
  lemma FailureCancelsNobody() returns (failure: seq<Event>, later: seq<Event>)
    ensures var before := Run(Plain(), Two(), failure); var after := Run(Plain(), before, later);
      && Initial(Two()) && |before.ps| == |after.ps| == 2
      && before.ps[0].control.phase == Done(FailedWith(REFUSAL), AttemptFailed)
      && before.ps[1] == Two().ps[1] && after.ps[1].history.produced == 1
      && after.ps[0] == before.ps[0] && !after.flags.stop
  {
    TwoAre();
    var cfg, two, a, b := Plain(), Two(), Fresh("a"), Fresh("b");
    hide RefusedAtOnce, Sends, Alone, Run, Moves, Initial, Plain, Two, Fresh, Starts, REFUSAL, CALM;
    failure, later := Moves(0, RefusedAtOnce()), Moves(1, Sends());
    FailsAtOnce(cfg, a, CALM);
    SendsOne(cfg, b, CALM);
    InTurn(cfg, two, RefusedAtOnce(), Sends());
  }

  // ---- the barrier stops the others in the end ----

  /** Both take part in the barrier. */
  function BothRequired(): (cfg: Config)
    ensures !cfg.reconnect && cfg.required == {"a", "b"} && cfg.abort == NO_ABORT
  {
    Config(false, 0, {"a", "b"}, false, false, false, NO_ABORT)
  }

  lemma LooksInVain(cfg: Config, w: World)
    requires w.watch == Looking && !(cfg.required <= w.flags.ready)
    ensures MayExpire(cfg, w)
  {
  }

  lemma RampTurn(cfg: Config, p: Participant, f: Flags)
    requires Starts(p) && f.stop
    ensures StepOf(cfg, f, p, Halt) == (Control(Done(Completed, NotBegun), 0), Nothing)
  {
    hide Session, Recover;
  }

  lemma NothingBegun(p: Participant)
    requires Starts(p)
    ensures NeverBegan(Moved(p, (Control(Done(Completed, NotBegun), 0), Nothing)))
  {
    NothingAdded();
    hide Added;
  }

  lemma NothingAdded()
    ensures Added(Nothing).attempts == 0
  {
  }

  ghost predicate NeverBegan(p: Participant) {
    p.control.phase == Done(Completed, NotBegun) && p.history.tally.attempts == 0
  }

  lemma MovedOne(cfg: Config, w: World, i: nat, c: Choice)
    requires i < |w.ps|
    ensures Step(cfg, w, Move(i, c)).ps == w.ps[i := Moved(w.ps[i], StepOf(cfg, w.flags, w.ps[i], c))]
  {
    hide StepOf, Moved, Added, Marked;
  }

  lemma RampHalts(cfg: Config, w: World, i: nat)
    requires i < |w.ps| && Starts(w.ps[i]) && w.flags.stop
    ensures |Step(cfg, w, Move(i, Halt)).ps| == |w.ps|
    ensures NeverBegan(Step(cfg, w, Move(i, Halt)).ps[i])
  {
    hide Step, StepOf, Moved, NeverBegan;
    MovedOne(cfg, w, i, Halt);
    hide Starts;
    RampTurn(cfg, w.ps[i], w.flags);
    NothingBegun(w.ps[i]);
  }

  /**
   With both required the first fails for good, which stops nobody: the other is as it was.  But the barrier does
   not open any more, its deadline passes, the harness stops the run without any signal, and the second ends
   before its first attempt.
   */
  lemma FailureEndsAtBarrier() returns (failure: seq<Event>, expiry: seq<Event>)
    ensures Signal !in failure && Signal !in expiry && Initial(Two())
    ensures var cfg := BothRequired(); var before := Run(cfg, Two(), failure);
      var expired := Run(cfg, before, expiry); var after := Step(cfg, expired, Move(1, Halt));
      && |before.ps| == |expired.ps| == |after.ps| == 2
      && before.ps[0].control.phase == Done(FailedWith(REFUSAL), AttemptFailed)
      && before.flags == CALM && before.ps[1] == Two().ps[1]
      && Expires(before, expired) && NeverBegan(after.ps[1])
  {
    TwoAre();
    OneOfBoth();
    var cfg, two, a := BothRequired(), Two(), Fresh("a");
    hide RefusedAtOnce, Alone, Run, Moves, Initial, BothRequired, Two, Fresh, Starts, REFUSAL, CALM;
    failure := Moves(0, RefusedAtOnce());
    FailsAtOnce(cfg, a, CALM);
    MovesAreAlone(cfg, two, 0, RefusedAtOnce());
    var before := Run(cfg, two, failure);
    LooksInVain(cfg, before);
    expiry := ExpiryIsUnsignalled(cfg, before);
    hide Step, NeverBegan;
    RampHalts(cfg, Run(cfg, before, expiry), 1);
    MovesAreUnsignalled(0, RefusedAtOnce());
  }

  lemma MovesAreUnsignalled(i: nat, choices: seq<Choice>)
    ensures Signal !in Moves(i, choices)
  {
  }

  // ---- the barrier outlasts the run ----

  function Waits(): seq<Choice> { ToBarrier() + [Go] }

  lemma LeadsToWait(cfg: Config, p: Participant, f: Flags, g: Flags)
    requires p.id in cfg.required && g == f.(ready := f.ready + {p.id}) && !(cfg.required <= g.ready)
    ensures Marked(cfg, f, p.id, MarkReady) == g && Leads(cfg, p, Spot(Checking, 0, g), Go, Spot(Waiting, 0, g))
  {
  }

  lemma WaitsForOther(cfg: Config, p: Participant, f: Flags)
    requires Starts(p) && !f.Over() && p.id in cfg.required && !(cfg.required <= f.ready + {p.id})
    ensures Stands(cfg, p, f, Waits(), Spot(Waiting, 0, f.(ready := f.ready + {p.id})))
  {
    var g := f.(ready := f.ready + {p.id});
    ComesToBarrier(cfg, p, f);
    LeadsToWait(cfg, p, f, g);
    hide Stands, Leads, ToBarrier, Marked;
    Onward(cfg, p, f, ToBarrier(), Spot(Checking, 0, g), Go, Spot(Waiting, 0, g));
  }

  /** A participant that has not connected when the run is over never does. */
  lemma {:induction false} RampEnds(cfg: Config, w: World, events: seq<Event>, i: nat)
    requires i < |w.ps| && w.flags.Over() && w.ps[i].control.phase in {Ramp, LoopTop} && w.ps[i].history.trace == []
    ensures var after := Run(cfg, w, events);
      |after.ps| == |w.ps| && after.ps[i].history.trace == []
    decreases |events|
  {
    if events != [] {
      var next := Step(cfg, w, events[0]);
      RampStep(cfg, w, events[0], i);
      hide Step;
      if next.ps[i].control.phase.Done? {
        DoneStaysDone(cfg, next, events[1..], i);
      } else {
        RampEnds(cfg, next, events[1..], i);
      }
    }
  }

  lemma RampStep(cfg: Config, w: World, e: Event, i: nat)
    requires i < |w.ps| && w.flags.Over() && w.ps[i].control.phase in {Ramp, LoopTop} && w.ps[i].history.trace == []
    ensures var next := Step(cfg, w, e);
      && |next.ps| == |w.ps| && next.flags.Over() && next.ps[i].history.trace == []
      && (next.ps[i].control.phase in {Ramp, LoopTop} || next.ps[i].control.phase.Done?)
  {
    hide Session, Recover;
  }

  lemma OneOfBoth()
    ensures "a" in BothRequired().required && "b" in BothRequired().required && "a" != "b"
    ensures !(BothRequired().required <= {} + {"a"}) && {} + {"a"} == {"a"}
  {
    assert "b" in BothRequired().required && "b" !in {"a"};
  }

  /** The first has come to the barrier and waits for the second; then the run's deadline passes. */
  lemma SecondIsLate() returns (events: seq<Event>)
    ensures Late(Run(BothRequired(), Two(), events))
  {
    TwoAre();
    OneOfBoth();
    var cfg, two, a := BothRequired(), Two(), Fresh("a");
    hide Waits, Alone, Moves, BothRequired, Run, Two, Initial, Fresh, Starts;
    var moves := Moves(0, Waits());
    events := moves + [PassDeadline];
    WaitsForOther(cfg, a, CALM);
    MovesAreAlone(cfg, two, 0, Waits());
    RunConcat(cfg, two, moves, [PassDeadline]);
    RunOne(cfg, Run(cfg, two, moves), PassDeadline);
    hide CALM;
  }

  ghost predicate Late(w: World) {
    && |w.ps| == 2 && w.ps[0].control.phase.Waiting? && w.ps[1] == Fresh("b")
    && w.flags == Flags({"a"}, false, true, false) && w.watch == Looking && w.monitor == Monitor(None, false)
  }

  /** It never becomes ready: the run was over before it dialled. */
  lemma SecondIsNeverReady(events: seq<Event>, more: seq<Event>)
    requires Late(Run(BothRequired(), Two(), events))
    ensures "b" !in Run(BothRequired(), Two(), events + more).flags.ready
  {
    TwoAre();
    OneOfBoth();
    var cfg, two := BothRequired(), Two();
    hide Run, BothRequired, AllHold, Total, Initial, Two, Fresh;
    var late, after := Run(cfg, two, events), Run(cfg, two, events + more);
    RunConcat(cfg, two, events, more);
    RampEnds(cfg, late, more, 1);
    InitialInv(cfg, two);
    RunKeepsInv(cfg, two, events + more);
    NamesStay(cfg, two, events + more);
    NotConnected(after.ps, 1);
  }

  /**
   A run from the start in which a participant waits at the barrier when the run's deadline passes, and is
   still there after anything that may happen but the stop signal and the barrier's own deadline.
   */
  lemma BarrierOutlastsRun() returns (events: seq<Event>)
    ensures Initial(Two()) && PassDeadline in events
    ensures forall more :: Signal !in more && PassBarrierDeadline !in more ==>
      var after := Run(BothRequired(), Two(), events + more);
      |after.ps| == 2 && AtBarrier(after.ps[0]) && after.flags.deadline
  {
    TwoAre();
    hide Run, BothRequired, Two, Late, AtBarrier;
    events := SecondIsLate();
    forall more | Signal !in more && PassBarrierDeadline !in more
      ensures var after := Run(BothRequired(), Two(), events + more);
        |after.ps| == 2 && AtBarrier(after.ps[0]) && after.flags.deadline
    {
      StillThere(events, more);
    }
    LatePastDeadline(events);
  }

  lemma LatePastDeadline(events: seq<Event>)
    requires Late(Run(BothRequired(), Two(), events))
    ensures PassDeadline in events
  {
    ClocksTell(BothRequired(), Two(), events);
  }

  lemma StillThere(events: seq<Event>, more: seq<Event>)
    requires Late(Run(BothRequired(), Two(), events))
    requires Signal !in more && PassBarrierDeadline !in more
    ensures var after := Run(BothRequired(), Two(), events + more);
      |after.ps| == 2 && AtBarrier(after.ps[0]) && after.flags.deadline
  {
    OneOfBoth();
    var cfg, two := BothRequired(), Two();
    hide Run, BothRequired, Two, Fresh;
    var late := Run(cfg, two, events);
    RunConcat(cfg, two, events, more);
    SecondIsNeverReady(events, more);
    BarrierIgnoresRunDeadline(cfg, late, more, 0);
    StopHasThreeCauses(cfg, late, more);
    RunKeepsWatch(cfg, late, more);
    NobodyAborts(events + more);
    ClocksTell(cfg, late, more);
  }

  lemma NobodyAborts(events: seq<Event>)
    ensures !Run(BothRequired(), Two(), events).monitor.aborted
  {
    TwoAre();
    hide Run, Two, Inv, BothRequired, Initial;
    StartIsCalm(Two());
    InitialInv(BothRequired(), Two());
    NeverAborts(BothRequired(), Two(), events);
  }
}
