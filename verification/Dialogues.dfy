/**
 What one participant is told and what it makes of it.  Under any schedule, the places at which it looks at the
 shared flags or waits for its environment, with what it saw and what came, are those of the loop in
 src/scenarios.rs:274-287, 302-399 and 496-586 run on its own; its counters count the answers, and its exit is
 what the last of them says.
 */
module Dialogues {
  import opened Wrappers
  import opened Marker
  import opened Metrics
  import opened Participants
  import opened Lifecycles
  import opened Interleavings

  /** Where a participant looks or waits; everything else it does on its own. */
  datatype Place = AtRamp | AtTop | AtDial | AtStart | AtCheck | AtBarrier | AtSend | AtRead | AtVerdict | AtPause

  /** What came, and the flags as they were. */
  datatype Stamp = Stamp(place: Place, c: Choice, f: Flags)

  /** The place a participant is at or on its way to, and after how many failures; or how it has ended. */
  datatype Status = At(place: Place, k: nat, fault: Option<Fault>) | Ended(exit: Exit)

  function PlaceOf(phase: Phase): Option<Place> {
    match phase
    case Ramp => Some(AtRamp)
    case LoopTop => Some(AtTop)
    case Dialing => Some(AtDial)
    case Starting => Some(AtStart)
    case Checking => Some(AtCheck)
    case Waiting => Some(AtBarrier)
    case Sending => Some(AtSend)
    case Reading => Some(AtRead)
    case Judging(_) => Some(AtVerdict)
    case Sleeping(_) => Some(AtPause)
    case _ => None
  }

  /** The stamps of participant `i` in a run. */
  function Dialogue(cfg: Config, w: World, events: seq<Event>, i: nat): seq<Stamp>
    decreases |events|
  {
    if events == [] then []
    else StampOf(w, events[0], i) + Dialogue(cfg, Step(cfg, w, events[0]), events[1..], i)
  }

  function StampOf(w: World, e: Event, i: nat): seq<Stamp> {
    if e.Move? && e.i == i < |w.ps| && PlaceOf(w.ps[i].control.phase).Some?
    then [Stamp(PlaceOf(w.ps[i].control.phase).value, e.c, w.flags)]
    else []
  }

  // ---- the loop on its own ----

  /** After a failure: another turn, if there is one left. */
  function AfterFailure(cfg: Config, k: nat, fault: Fault): Status {
    if k >= cfg.maxAttempts then Ended(ReconnectExhausted) else At(AtPause, k + 1, Some(fault))
  }

  /** The dial of one turn. */
  function Dialed(cfg: Config, s: Stamp, k: nat): Status {
    match s.c
    case Halt => if s.f.stop || s.f.deadline then Ended(Completed) else At(AtDial, k, None)
    case Refuse(tls) =>
      if cfg.reconnect then AfterFailure(cfg, k, Fault(true, tls)) else Ended(FailedWith(Fault(true, tls)))
    case Connect => At(AtStart, k, None)
    case _ => At(AtDial, k, None)
  }

  /** The barrier and the workload behind it. */
  function Worked(cfg: Config, s: Stamp, k: nat): Status {
    match (s.place, s.c)
    case (AtCheck, _) => At(if cfg.required <= s.f.ready then AtSend else AtBarrier, k, None)
    case (AtBarrier, Go) => At(AtCheck, k, None)
    case (AtBarrier, Halt) => if s.f.stop then Ended(Completed) else At(AtBarrier, k, None)
    case (AtBarrier, GiveUp) => if s.f.barrierOver then Ended(Completed) else At(AtBarrier, k, None)
    case (AtSend, HangUp) => if cfg.abrupt then Ended(Completed) else At(AtSend, k, None)
    case (_, Halt) => if s.f.stop || s.f.deadline then Ended(Completed) else At(s.place, k, None)
    case (AtSend, Break(tls)) => At(AtVerdict, k, Some(Fault(false, cfg.tlsEnabled && tls)))
    case (AtRead, Break(tls)) => At(AtVerdict, k, Some(Fault(false, cfg.tlsEnabled && tls)))
    case _ => At(s.place, k, None)
  }

  /** Where one answer leads. */
  function Answered(cfg: Config, role: Role, st: Status, s: Stamp): Status {
    if st.Ended? then st
    else
      var over := s.f.stop || s.f.deadline;
      match s.place
      case AtRamp =>
        if s.c == Halt && over then Ended(Completed) else At(if s.c == Go then AtTop else AtRamp, st.k, None)
      case AtTop => if over then Ended(Completed) else At(AtDial, st.k, None)
      case AtDial => Dialed(cfg, s, st.k)
      case AtStart =>
        if role == ReceiveOnly then At(AtRead, st.k, None)
        else if s.c == Halt && cfg.slowConnect && over then Ended(Completed)
        else At(AtCheck, st.k, None)
      case AtCheck | AtBarrier | AtSend | AtRead => Worked(cfg, s, st.k)
      case AtVerdict =>
        if st.fault.None? then st
        else if !cfg.reconnect || s.f.deadline then Ended(FailedWith(st.fault.value))
        else AfterFailure(cfg, st.k, st.fault.value)
      case AtPause =>
        if st.fault.None? then st
        else if s.c == Halt && over then Ended(if s.f.stop then Completed else FailedWith(st.fault.value))
        else if s.c == Go then At(AtTop, st.k, None)
        else st
  }

  function Told(cfg: Config, role: Role, st: Status, log: seq<Stamp>): Status
    decreases |log|
  {
    if log == [] then st else Told(cfg, role, Answered(cfg, role, st, log[0]), log[1..])
  }

  /** Every stamp is of the place that the answers so far have led to. */
  ghost predicate InPlace(cfg: Config, role: Role, st: Status, log: seq<Stamp>)
    decreases |log|
  {
    log != [] ==>
      && st.At? && st.place == log[0].place
      && InPlace(cfg, role, Answered(cfg, role, st, log[0]), log[1..])
  }

  // ---- the phases are on the way ----

  function StatusOf(cfg: Config, s: Control): Status {
    match s.phase
    case Ramp => At(AtRamp, s.attempt, None)
    case LoopTop => At(AtTop, s.attempt, None)
    case Counting | Dialing => At(AtDial, s.attempt, None)
    case Opened | Activating | Recovering | AnnouncingConnected | AnnouncingReady | Marking | Starting =>
      At(AtStart, s.attempt, None)
    case Checking => At(AtCheck, s.attempt, None)
    case Waiting => At(AtBarrier, s.attempt, None)
    case Sending => At(AtSend, s.attempt, None)
    case Reading => At(AtRead, s.attempt, None)
    case Closing(broken) => Parting(cfg, s.attempt, broken)
    case Leaving(broken) => Parting(cfg, s.attempt, broken)
    case Failed(fault) => Failing(cfg, s.attempt, fault)
    case FailedTls(fault) => Failing(cfg, s.attempt, fault)
    case Reporting(fault) => Failing(cfg, s.attempt, fault)
    case Judging(fault) => At(AtVerdict, s.attempt, Some(fault))
    case Deciding(fault) => AfterFailure(cfg, s.attempt, fault)
    case Sleeping(fault) => At(AtPause, s.attempt, Some(fault))
    case Done(exit, _) => Ended(exit)
  }

  function Parting(cfg: Config, k: nat, broken: Option<bool>): Status {
    match broken
    case None => Ended(Completed)
    case Some(tls) => At(AtVerdict, k, Some(Fault(false, cfg.tlsEnabled && tls)))
  }

  function Failing(cfg: Config, k: nat, fault: Fault): Status {
    if !fault.dialing then At(AtVerdict, k, Some(fault))
    else if cfg.reconnect then AfterFailure(cfg, k, fault)
    else Ended(FailedWith(fault))
  }

  /** What one move does: an answer is taken where there is one to take, and otherwise nothing changes. */
  ghost predicate Answers(cfg: Config, role: Role, f: Flags, s: Control, c: Choice, next: Control) {
    match PlaceOf(s.phase)
    case None => StatusOf(cfg, next) == StatusOf(cfg, s)
    case Some(place) =>
      && StatusOf(cfg, s).At? && StatusOf(cfg, s).place == place
      && StatusOf(cfg, next) == Answered(cfg, role, StatusOf(cfg, s), Stamp(place, c, f))
  }

  lemma DialAnswers(cfg: Config, role: Role, f: Flags, s: Control, c: Choice)
    requires InDial(s.phase)
    ensures Answers(cfg, role, f, s, c, Dial(f, s, c).0)
  {
  }

  lemma ArrivalAnswers(cfg: Config, role: Role, f: Flags, s: Control, c: Choice)
    requires InSession(s.phase) && PlaceOf(s.phase).None?
    ensures Answers(cfg, role, f, s, c, Session(cfg, role, f, s, c).0)
  {
  }

  lemma WorkAnswers(cfg: Config, role: Role, f: Flags, s: Control, c: Choice)
    requires s.phase in {Starting, Checking, Waiting}
    ensures Answers(cfg, role, f, s, c, Session(cfg, role, f, s, c).0)
  {
  }

  lemma SessionAnswers(cfg: Config, role: Role, f: Flags, s: Control, c: Choice)
    requires s.phase in {Sending, Reading}
    ensures Answers(cfg, role, f, s, c, Session(cfg, role, f, s, c).0)
  {
  }

  lemma RecoverAnswers(cfg: Config, role: Role, f: Flags, s: Control, c: Choice)
    requires InRecover(s.phase)
    ensures Answers(cfg, role, f, s, c, Recover(cfg, f, s, c).0)
  {
  }

  lemma NextAnswers(cfg: Config, role: Role, f: Flags, s: Control, c: Choice)
    ensures Answers(cfg, role, f, s, c, Next(cfg, role, f, s, c).0)
  {
    hide Dial, Session, Recover, Answered, StatusOf;
    if InDial(s.phase) {
      DialAnswers(cfg, role, f, s, c);
    } else if InRecover(s.phase) {
      RecoverAnswers(cfg, role, f, s, c);
    } else if InSession(s.phase) {
      if PlaceOf(s.phase).None? {
        ArrivalAnswers(cfg, role, f, s, c);
      } else if s.phase in {Sending, Reading} {
        SessionAnswers(cfg, role, f, s, c);
      } else {
        WorkAnswers(cfg, role, f, s, c);
      }
    } else {
      DoneStays(cfg, role, f, s, c);
    }
  }

  // ---- under every schedule ----

  lemma StepAnswers(cfg: Config, w: World, e: Event, i: nat)
    requires i < |w.ps|
    ensures var next := Step(cfg, w, e); var p, stamps := w.ps[i], StampOf(w, e, i);
      && |next.ps| == |w.ps| && next.ps[i].role == p.role
      && StatusOf(cfg, next.ps[i].control) == Told(cfg, p.role, StatusOf(cfg, p.control), stamps)
      && InPlace(cfg, p.role, StatusOf(cfg, p.control), stamps)
  {
    var p, stamps := w.ps[i], StampOf(w, e, i);
    if e.Move? && e.i == i {
      NextAnswers(cfg, p.role, w.flags, p.control, e.c);
    }
    hide Next, Answered, StatusOf, Added;
    if stamps != [] {
      assert stamps[1..] == [];
    }
  }

  lemma {:induction false} ToldAppend(cfg: Config, role: Role, st: Status, a: seq<Stamp>, b: seq<Stamp>)
    ensures Told(cfg, role, st, a + b) == Told(cfg, role, Told(cfg, role, st, a), b)
    ensures InPlace(cfg, role, st, a + b) <==>
      InPlace(cfg, role, st, a) && InPlace(cfg, role, Told(cfg, role, st, a), b)
    decreases |a|
  {
    if a == [] {
      assert a + b == b;
    } else {
      assert (a + b)[0] == a[0] && (a + b)[1..] == a[1..] + b;
      hide Answered;
      ToldAppend(cfg, role, Answered(cfg, role, st, a[0]), a[1..], b);
    }
  }

  /**
   Any schedule, seen by one participant: what it saw and was told takes the loop on its own, step by step, from
   where it stood to where it stands.
   */
  lemma {:induction false} RunAnswers(cfg: Config, w: World, events: seq<Event>, i: nat)
    requires i < |w.ps|
    ensures var after := Run(cfg, w, events); var p, log := w.ps[i], Dialogue(cfg, w, events, i);
      && |after.ps| == |w.ps|
      && StatusOf(cfg, after.ps[i].control) == Told(cfg, p.role, StatusOf(cfg, p.control), log)
      && InPlace(cfg, p.role, StatusOf(cfg, p.control), log)
    decreases |events|
  {
    if events != [] {
      var next, p := Step(cfg, w, events[0]), w.ps[i];
      StepAnswers(cfg, w, events[0], i);
      hide Step, Answered, StatusOf, StampOf;
      RunAnswers(cfg, next, events[1..], i);
      ToldAppend(cfg, p.role, StatusOf(cfg, p.control), StampOf(w, events[0], i), Dialogue(cfg, next, events[1..], i));
      hide Told, InPlace;
    }
  }

  // ---- the counters count the answers ----

  datatype Tally = Tally(tries: int, connects: int, refusals: int, breaks: int, cancels: int, tls: int, sends: int)
  {
    function Plus(d: Tally): Tally {
      Tally(tries + d.tries, connects + d.connects, refusals + d.refusals, breaks + d.breaks,
              cancels + d.cancels, tls + d.tls, sends + d.sends)
    }
  }

  const NO_ANSWERS := Tally(0, 0, 0, 0, 0, 0, 0)

  predicate IsRefusal(s: Stamp) { s.place == AtDial && s.c.Refuse? }

  predicate IsBreak(s: Stamp) { (s.place == AtSend || s.place == AtRead) && s.c.Break? }

  predicate IsTls(cfg: Config, s: Stamp) {
    (IsRefusal(s) && s.c.tls) || (IsBreak(s) && cfg.tlsEnabled && s.c.tls)
  }

  /** What a stamp is an answer of: an attempt is made at a top that is not over, an event is sent on each tick. */
  function Says(cfg: Config, s: Stamp): Tally {
    var over := s.f.stop || s.f.deadline;
    Tally(If(s.place == AtTop && !over), If(s.place == AtDial && s.c == Connect), If(IsRefusal(s)), If(IsBreak(s)),
            If(s.place == AtDial && s.c == Halt && over), If(IsTls(cfg, s)), If(s.place == AtSend && s.c == Go))
  }

  function AllSaid(cfg: Config, log: seq<Stamp>): Tally
    decreases |log|
  {
    if log == [] then NO_ANSWERS else Says(cfg, log[0]).Plus(AllSaid(cfg, log[1..]))
  }

  /** What a participant has counted. */
  function CountedBy(h: History): Tally {
    Tally(h.tally.attempts, h.tally.successes, h.refused, h.broken, h.cancelled, h.tally.tlsFailures, h.produced)
  }

  /** What it has been told and has yet to count. */
  function Uncounted(cfg: Config, phase: Phase): Tally {
    match phase
    case Counting => Tally(1, 0, 0, 0, 0, 0, 0)
    case Opened => Tally(0, 1, 0, 0, 0, 0, 0)
    case Closing(Some(tls)) => Tally(0, 0, 0, 1, 0, If(cfg.tlsEnabled && tls), 0)
    case Leaving(Some(tls)) => Tally(0, 0, 0, 1, 0, If(cfg.tlsEnabled && tls), 0)
    case Failed(fault) => Tally(0, 0, If(fault.dialing), If(!fault.dialing), 0, If(fault.tls), 0)
    case FailedTls(fault) => Tally(0, 0, 0, 0, 0, If(fault.tls), 0)
    case _ => NO_ANSWERS
  }

  /** What an effect counts. */
  function Gains(e: Effect): Tally {
    Tally(If(e == CountAttempt), If(e == CountSuccess), If(e == CountFailure(true)), If(e == CountFailure(false)),
          If(e == CancelDial), If(e == CountTlsFailure), If(e == Produce))
  }

  lemma RememberGains(h: History, s: Control, e: Effect)
    ensures CountedBy(Remember(h, s, e)) == CountedBy(h).Plus(Gains(e))
  {
  }

  function SaidAt(cfg: Config, phase: Phase, f: Flags, c: Choice): Tally {
    match PlaceOf(phase) case Some(place) => Says(cfg, Stamp(place, c, f)) case None => NO_ANSWERS
  }

  /** A move counts, or leaves uncounted, exactly what it is told and what was uncounted before it. */
  ghost predicate Counts(cfg: Config, f: Flags, phase: Phase, c: Choice, t: Turn) {
    var g, next := Gains(t.1), Uncounted(cfg, t.0.phase);
    var was, said := Uncounted(cfg, phase), SaidAt(cfg, phase, f, c);
    && g.tries + next.tries == was.tries + said.tries && g.connects + next.connects == was.connects + said.connects
    && g.refusals + next.refusals == was.refusals + said.refusals && g.breaks + next.breaks == was.breaks + said.breaks
    && g.cancels + next.cancels == was.cancels + said.cancels && g.tls + next.tls == was.tls + said.tls
    && g.sends + next.sends == was.sends + said.sends
  }

  lemma SaysNothing(cfg: Config, phase: Phase, f: Flags, c: Choice)
    requires PlaceOf(phase).None?
    ensures SaidAt(cfg, phase, f, c) == Tally(0, 0, 0, 0, 0, 0, 0)
  {
  }

  lemma JudgeSaysNothing(cfg: Config, phase: Phase, f: Flags, c: Choice)
    requires phase.Judging? || phase.Sleeping?
    ensures SaidAt(cfg, phase, f, c) == Tally(0, 0, 0, 0, 0, 0, 0)
  {
  }

  lemma OpeningCounts(cfg: Config, f: Flags, s: Control, c: Choice)
    requires s.phase in {Counting, Opened, Activating, Recovering}
    ensures Counts(cfg, f, s.phase, c, Dial(f, s, c))
  {
    SaysNothing(cfg, s.phase, f, c);
    hide SaidAt, PlaceOf;
  }

  lemma DialCounts(cfg: Config, f: Flags, s: Control, c: Choice)
    requires s.phase == Dialing
    ensures Counts(cfg, f, s.phase, c, Dial(f, s, c))
  {
  }

  lemma TopCounts(cfg: Config, f: Flags, s: Control, c: Choice)
    requires s.phase in {Ramp, LoopTop}
    ensures Counts(cfg, f, s.phase, c, Dial(f, s, c))
  {
  }

  lemma ArrivalCounts(cfg: Config, role: Role, f: Flags, s: Control, c: Choice)
    requires InSession(s.phase) && PlaceOf(s.phase).None?
    ensures Counts(cfg, f, s.phase, c, Session(cfg, role, f, s, c))
  {
    SaysNothing(cfg, s.phase, f, c);
    hide SaidAt;
  }

  lemma WaitCounts(cfg: Config, role: Role, f: Flags, s: Control, c: Choice)
    requires s.phase == Starting || s.phase == Checking || s.phase == Waiting
    ensures Counts(cfg, f, s.phase, c, Session(cfg, role, f, s, c))
  {
  }

  lemma WorkCounts(cfg: Config, role: Role, f: Flags, s: Control, c: Choice)
    requires s.phase == Sending || s.phase == Reading
    ensures Counts(cfg, f, s.phase, c, Session(cfg, role, f, s, c))
  {
  }

  lemma ReportCounts(cfg: Config, f: Flags, s: Control, c: Choice)
    requires s.phase.Failed? || s.phase.FailedTls? || s.phase.Reporting?
    ensures Counts(cfg, f, s.phase, c, Recover(cfg, f, s, c))
  {
    SaysNothing(cfg, s.phase, f, c);
    hide SaidAt, PlaceOf;
  }

  lemma RecoverCounts(cfg: Config, f: Flags, s: Control, c: Choice)
    requires s.phase.Judging? || s.phase.Deciding? || s.phase.Sleeping?
    ensures Counts(cfg, f, s.phase, c, Recover(cfg, f, s, c))
  {
    if s.phase.Deciding? {
      SaysNothing(cfg, s.phase, f, c);
    } else {
      JudgeSaysNothing(cfg, s.phase, f, c);
    }
    hide SaidAt, PlaceOf;
  }

  lemma DoneCounts(cfg: Config, f: Flags, s: Control, c: Choice)
    requires s.phase.Done?
    ensures Counts(cfg, f, s.phase, c, (s, Nothing))
  {
  }

  lemma NextCounts(cfg: Config, role: Role, f: Flags, s: Control, c: Choice)
    ensures Counts(cfg, f, s.phase, c, Next(cfg, role, f, s, c))
  {
    hide Dial, Session, Recover, Counts;
    if s.phase == Dialing {
      DialCounts(cfg, f, s, c);
    } else if s.phase in {Ramp, LoopTop} {
      TopCounts(cfg, f, s, c);
    } else if InDial(s.phase) {
      OpeningCounts(cfg, f, s, c);
    } else if s.phase.Failed? || s.phase.FailedTls? || s.phase.Reporting? {
      ReportCounts(cfg, f, s, c);
    } else if InRecover(s.phase) {
      RecoverCounts(cfg, f, s, c);
    } else if InSession(s.phase) {
      if PlaceOf(s.phase).None? {
        ArrivalCounts(cfg, role, f, s, c);
      } else if s.phase == Starting || s.phase == Checking || s.phase == Waiting {
        WaitCounts(cfg, role, f, s, c);
      } else {
        WorkCounts(cfg, role, f, s, c);
      }
    } else {
      DoneStays(cfg, role, f, s, c);
      DoneCounts(cfg, f, s, c);
    }
  }

  function Account(cfg: Config, p: Participant): Tally {
    CountedBy(p.history).Plus(Uncounted(cfg, p.control.phase))
  }

  lemma MoveCounts(cfg: Config, f: Flags, p: Participant, c: Choice)
    ensures var t := StepOf(cfg, f, p, c);
      Account(cfg, Moved(p, t)) == Account(cfg, p).Plus(SaidAt(cfg, p.control.phase, f, c))
  {
    NextCounts(cfg, p.role, f, p.control, c);
    RememberGains(p.history, p.control, StepOf(cfg, f, p, c).1);
    hide Next, SaidAt, Uncounted, CountedBy, Remember, Gains;
  }

  lemma StepCounts(cfg: Config, w: World, e: Event, i: nat)
    requires i < |w.ps|
    ensures var next := Step(cfg, w, e);
      |next.ps| == |w.ps| && Account(cfg, next.ps[i]) == Account(cfg, w.ps[i]).Plus(AllSaid(cfg, StampOf(w, e, i)))
  {
    if e.Move? && e.i == i {
      MoveCounts(cfg, w.flags, w.ps[i], e.c);
      OneSaid(cfg, w, e, i);
      hide StepOf, Moved, SaidAt, Account, StampOf, AllSaid, Tally.Plus, Added;
    } else {
      hide StepOf, Moved, Account, Added;
      PlusAssociates(Account(cfg, w.ps[i]), NO_ANSWERS, NO_ANSWERS);
    }
  }

  lemma OneSaid(cfg: Config, w: World, e: Event, i: nat)
    requires e.Move? && e.i == i < |w.ps|
    ensures AllSaid(cfg, StampOf(w, e, i)) == SaidAt(cfg, w.ps[i].control.phase, w.flags, e.c)
  {
    hide Says, PlaceOf;
    var stamps := StampOf(w, e, i);
    if stamps != [] {
      assert stamps[1..] == [];
    }
  }

  lemma {:induction false} AllSaidAppend(cfg: Config, a: seq<Stamp>, b: seq<Stamp>)
    ensures AllSaid(cfg, a + b) == AllSaid(cfg, a).Plus(AllSaid(cfg, b))
    decreases |a|
  {
    if a == [] {
      assert a + b == b;
    } else {
      assert (a + b)[0] == a[0] && (a + b)[1..] == a[1..] + b;
      hide Says;
      AllSaidAppend(cfg, a[1..], b);
    }
  }

  /** In every state of every run a participant has counted what it was told, but for what it is about to count. */
  lemma PlusAssociates(a: Tally, b: Tally, c: Tally)
    ensures a.Plus(b).Plus(c) == a.Plus(b.Plus(c)) && a.Plus(NO_ANSWERS) == a
  {
  }

  /** In every state of every run a participant has counted what it was told, but for what it is about to count. */
  lemma {:induction false} RunCounts(cfg: Config, w: World, events: seq<Event>, i: nat)
    requires i < |w.ps|
    ensures var after := Run(cfg, w, events);
      |after.ps| == |w.ps| && Account(cfg, after.ps[i]) == Account(cfg, w.ps[i]).Plus(AllSaid(cfg, Dialogue(cfg, w, events, i)))
    decreases |events|
  {
    hide Step, Account, StampOf, AllSaid, Tally.Plus;
    if events != [] {
      var next, rest := Step(cfg, w, events[0]), events[1..];
      StepCounts(cfg, w, events[0], i);
      RunCounts(cfg, next, rest, i);
      AllSaidAppend(cfg, StampOf(w, events[0], i), Dialogue(cfg, next, rest, i));
      PlusAssociates(Account(cfg, w.ps[i]), AllSaid(cfg, StampOf(w, events[0], i)), AllSaid(cfg, Dialogue(cfg, next, rest, i)));
    } else {
      NothingSaid(cfg);
      PlusAssociates(Account(cfg, w.ps[i]), NO_ANSWERS, NO_ANSWERS);
    }
  }

  lemma NothingSaid(cfg: Config)
    ensures AllSaid(cfg, []) == NO_ANSWERS
  {
  }

  // ---- the verdict ----

  predicate IsFailure(s: Stamp) { IsRefusal(s) || IsBreak(s) }

  function Failures(log: seq<Stamp>): nat {
    if log == [] then 0 else Failures(log[..|log| - 1]) + If(IsFailure(log[|log| - 1]))
  }

  /** The failure that the last refusal or break was. */
  function LastFault(cfg: Config, log: seq<Stamp>): Option<Fault> {
    if log == [] then None
    else
      var s := log[|log| - 1];
      if IsRefusal(s) then Some(Fault(true, s.c.tls))
      else if IsBreak(s) then Some(Fault(false, cfg.tlsEnabled && s.c.tls))
      else LastFault(cfg, log[..|log| - 1])
  }

  const BEGINNING := At(AtRamp, 0, None)

  /** Where the loop stands: every failure but the one in question has used up a turn, and it is remembered. */
  ghost predicate Stands(cfg: Config, log: seq<Stamp>, st: Status) {
    st.At? ==>
      && st.k + If(st.place == AtVerdict) == Failures(log) && st.k <= MaxAttempts(cfg)
      && (st.place == AtVerdict || st.place == AtPause ==> st.fault.Some? && st.fault == LastFault(cfg, log))
  }

  /**
   How it has ended, read from the last answer.  Out of turns: a failure that no deadline decides, with reconnect on
   and every turn failed.  With the last failure: without reconnect; with it, when the deadline is past at a
   break, or in the pause with no stop given.  Well: otherwise.
   */
  ghost predicate Concludes(cfg: Config, log: seq<Stamp>, exit: Exit) {
    log != [] &&
    var last := log[|log| - 1];
    var failed := IsRefusal(last) || last.place == AtVerdict;
    var late := last.place == AtVerdict && last.f.deadline;
    && (exit == ReconnectExhausted <==> failed && cfg.reconnect && !late)
    && (exit == ReconnectExhausted ==> Failures(log) == cfg.maxAttempts + 1)
    && (exit.FailedWith? <==> (failed && (!cfg.reconnect || late)) || (last.place == AtPause && !last.f.stop))
    && (exit.FailedWith? ==> Some(exit.fault) == LastFault(cfg, log))
    && (exit == Completed <==> !failed && (last.place == AtPause ==> last.f.stop))
    && (exit == Completed ==> Failures(log) <= MaxAttempts(cfg))
  }

  /** How often it has failed after one more stamp, and in what last. */
  lemma OneMoreStamp(cfg: Config, log: seq<Stamp>, s: Stamp)
    ensures Failures(log + [s]) == Failures(log) + If(IsFailure(s))
    ensures LastFault(cfg, log + [s]) ==
      if IsRefusal(s) then Some(Fault(true, s.c.tls))
      else if IsBreak(s) then Some(Fault(false, cfg.tlsEnabled && s.c.tls))
      else LastFault(cfg, log)
  {
    assert (log + [s])[..|log|] == log;
  }

  ghost predicate StandsNext(cfg: Config, role: Role, log: seq<Stamp>, st: Status, s: Stamp) {
    var next := Answered(cfg, role, st, s);
    Stands(cfg, log + [s], next) && (next.Ended? ==> Concludes(cfg, log + [s], next.exit))
  }

  lemma TopStands(cfg: Config, role: Role, log: seq<Stamp>, st: Status, s: Stamp)
    requires Stands(cfg, log, st) && st.At? && st.place == s.place
    requires s.place == AtRamp || s.place == AtTop || s.place == AtStart
    ensures StandsNext(cfg, role, log, st, s)
  {
    OneMoreStamp(cfg, log, s);
    hide Failures, LastFault, Dialed, Worked;
  }

  lemma DialStands(cfg: Config, role: Role, log: seq<Stamp>, st: Status, s: Stamp)
    requires Stands(cfg, log, st) && st.At? && st.place == s.place == AtDial
    ensures StandsNext(cfg, role, log, st, s)
  {
    OneMoreStamp(cfg, log, s);
    hide Failures, LastFault, Worked;
  }

  lemma WorkStands(cfg: Config, role: Role, log: seq<Stamp>, st: Status, s: Stamp)
    requires Stands(cfg, log, st) && st.At? && st.place == s.place
    requires s.place == AtCheck || s.place == AtBarrier || s.place == AtSend || s.place == AtRead
    ensures StandsNext(cfg, role, log, st, s)
  {
    OneMoreStamp(cfg, log, s);
    hide Failures, LastFault, Dialed, AfterFailure;
  }

  lemma VerdictStands(cfg: Config, role: Role, log: seq<Stamp>, st: Status, s: Stamp)
    requires Stands(cfg, log, st) && st.At? && st.place == s.place
    requires s.place == AtVerdict || s.place == AtPause
    ensures StandsNext(cfg, role, log, st, s)
  {
    OneMoreStamp(cfg, log, s);
    hide Failures, LastFault, Dialed, Worked;
  }

  lemma StampStands(cfg: Config, role: Role, log: seq<Stamp>, st: Status, s: Stamp)
    requires Stands(cfg, log, st) && st.At? && st.place == s.place
    ensures StandsNext(cfg, role, log, st, s)
  {
    hide Stands, StandsNext;
    match s.place
    case AtRamp | AtTop | AtStart => TopStands(cfg, role, log, st, s);
    case AtDial => DialStands(cfg, role, log, st, s);
    case AtCheck | AtBarrier | AtSend | AtRead => WorkStands(cfg, role, log, st, s);
    case AtVerdict | AtPause => VerdictStands(cfg, role, log, st, s);
  }

  lemma {:induction false} LogStands(cfg: Config, role: Role, log: seq<Stamp>)
    requires InPlace(cfg, role, BEGINNING, log)
    ensures var st := Told(cfg, role, BEGINNING, log);
      Stands(cfg, log, st) && (st.Ended? ==> Concludes(cfg, log, st.exit))
    decreases |log|
  {
    if log != [] {
      var front, s := log[..|log| - 1], log[|log| - 1];
      assert log == front + [s];
      ToldAppend(cfg, role, BEGINNING, front, [s]);
      LogStands(cfg, role, front);
      hide Answered, Stands, Concludes;
      var st := Told(cfg, role, BEGINNING, front);
      assert [s][1..] == [];
      StampStands(cfg, role, front, st, s);
    }
  }

  lemma AtFirst(cfg: Config, w: World, i: nat)
    requires Initial(w) && i < |w.ps|
    ensures StatusOf(cfg, w.ps[i].control) == BEGINNING && Account(cfg, w.ps[i]) == NO_ANSWERS
  {
    assert w.ps[i] in w.ps;
    NothingCounted(cfg, w.ps[i]);
    hide Account, NO_HISTORY;
  }

  lemma NothingCounted(cfg: Config, p: Participant)
    requires p.control.phase == Ramp && p.history == NO_HISTORY
    ensures Account(cfg, p) == NO_ANSWERS
  {
    assert Uncounted(cfg, Ramp) == NO_ANSWERS;
    assert CountedBy(NO_HISTORY) == NO_ANSWERS;
  }

  /**
   The verdict of every participant that has finished, in every run: read from what it was last told, how often it
   was told of a failure, and of which one last.
   */
  lemma VerdictExactly(cfg: Config, w: World, events: seq<Event>, i: nat)
    requires Initial(w) && i < |w.ps| == |Run(cfg, w, events).ps| && Run(cfg, w, events).ps[i].control.phase.Done?
    ensures Concludes(cfg, Dialogue(cfg, w, events, i), Run(cfg, w, events).ps[i].control.phase.exit)
  {
    hide Run, Dialogue, Initial, Concludes, Stands, InPlace, Told;
    AtFirst(cfg, w, i);
    RunAnswers(cfg, w, events, i);
    LogStands(cfg, w.ps[i].role, Dialogue(cfg, w, events, i));
  }

  /** What a finished participant has counted is what it was told: attempts, successes, failures by kind, events. */
  lemma CountersAreAnswers(cfg: Config, w: World, events: seq<Event>, i: nat)
    requires Initial(w) && i < |w.ps| == |Run(cfg, w, events).ps| && Run(cfg, w, events).ps[i].control.phase.Done?
    ensures CountedBy(Run(cfg, w, events).ps[i].history) == AllSaid(cfg, Dialogue(cfg, w, events, i))
  {
    hide Run, Dialogue, Initial, AllSaid, CountedBy;
    AtFirst(cfg, w, i);
    RunCounts(cfg, w, events, i);
  }

  /** Failures are refusals and breaks; what the last was is known if they are all of a kind. */
  lemma {:induction false} FailuresSaid(cfg: Config, log: seq<Stamp>)
    ensures var said, last := AllSaid(cfg, log), LastFault(cfg, log);
      && Failures(log) == said.refusals + said.breaks && said.refusals >= 0 && said.breaks >= 0
      && (last.Some? <==> Failures(log) > 0)
      && (last.Some? && last.value.dialing ==> said.refusals > 0)
      && (last.Some? && !last.value.dialing ==> said.breaks > 0)
    decreases |log|
  {
    if log == [] {
      NothingSaid(cfg);
    } else {
      var front, s := log[..|log| - 1], log[|log| - 1];
      assert log == front + [s];
      OneMoreStamp(cfg, front, s);
      hide Failures, LastFault, AllSaid;
      FailuresSaid(cfg, front);
      AllSaidAppend(cfg, front, [s]);
      LastSaid(cfg, s);
    }
  }

  /**
   The same over what each finished participant has counted.  A failed turn is never its last as a completed one.
   Without reconnect it has failed exactly if something did, by a refusal or by a break.  With it, it is
   exhausted exactly if all its turns failed and no deadline was past at a break; otherwise it fails only late.
   */
  lemma EachVerdict(cfg: Config, w: World, events: seq<Event>, i: nat)
    requires Initial(w) && i < |w.ps| == |Run(cfg, w, events).ps| && Run(cfg, w, events).ps[i].control.phase.Done?
    ensures var p := Run(cfg, w, events).ps[i]; var exit, failures := p.control.phase.exit, p.history.tally.failures;
      && (p.control.phase.last == AttemptFailed ==> exit != Completed)
      && (exit.FailedWith? ==> failures > 0 && if exit.fault.dialing then p.history.refused > 0 else p.history.broken > 0)
      && (!cfg.reconnect ==> exit != ReconnectExhausted && (exit.FailedWith? <==> failures > 0))
      && (!cfg.reconnect && failures > 0 ==> (exit.fault.dialing <==> p.history.refused > 0))
      && (exit == Completed ==> failures <= MaxAttempts(cfg))
      && (exit == ReconnectExhausted ==> failures == cfg.maxAttempts + 1)
  {
    var log, p := Dialogue(cfg, w, events, i), Run(cfg, w, events).ps[i];
    VerdictExactly(cfg, w, events, i);
    CountersAreAnswers(cfg, w, events, i);
    FailuresSaid(cfg, log);
    EachParticipant(cfg, w, events, i);
    InitialInv(cfg, w);
    RunKeepsInv(cfg, w, events);
    hide Run, Dialogue, Initial, Total, ReadyIsEarned, Failures, LastFault, AllSaid, Traces, LagsBehind, BarrierHolds;
    assert Holds(cfg, Run(cfg, w, events).flags, p);
  }

  lemma LastSaid(cfg: Config, s: Stamp)
    ensures AllSaid(cfg, [s]).refusals == If(IsRefusal(s)) && AllSaid(cfg, [s]).breaks == If(IsBreak(s))
  {
    assert [s][1..] == [];
    NothingSaid(cfg);
    hide AllSaid;
    SaidOnce(cfg, s);
  }

  lemma SaidOnce(cfg: Config, s: Stamp)
    ensures AllSaid(cfg, [s]) == Says(cfg, s)
  {
    hide Says;
    assert [s][1..] == [];
  }
}
