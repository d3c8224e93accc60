/**
 Send loops that do not return.  In the send-receive role the reader may end first; the loop is then dropped
 where it stands, with its batch (src/scenarios.rs:580-585), and what it held is counted nowhere.
 */
module Abandonment {
  import opened Wrappers
  import opened Marker
  import opened Numbers
  import opened Outgoing
  import opened CotXml
  import opened Sender
  import opened Conservation
  import opened Cadence
  import P = Participants

  /**
   Where a loop can stand: waiting for a wake-up, in the write that a tick has led to with some of its bytes
   delivered, or behind it, at the ledger's lock.
   */
  datatype Cut = AtSelect | InWrite(tick: Wake, delivered: nat) | AtLock(tick: Wake)

  datatype Ending = Returned | Dropped(cut: Cut)

  predicate IsAlone(cfg: SenderConfig, s: Sender) {
    InvalidKind(cfg, s.count) == Some(OversizedFrame)
  }

  /** The loop when a tick comes to its write: the event in hand has joined the batch, or is written on its own. */
  function Coming(cfg: SenderConfig, s: Sender, w: Wake): Sender
    requires w.Tick?
  {
    var e := Make(cfg, s.count, w);
    if IsAlone(cfg, s) then Made(s, e) else Append(Made(s, e), e)
  }

  function Payload(cfg: SenderConfig, s: Sender, w: Wake): Bytes
    requires w.Tick?
  {
    if IsAlone(cfg, s) then Make(cfg, s.count, w).xml else Coming(cfg, s, w).batch.bytes
  }

  /** The tick leads to a write. */
  predicate Writes(cfg: SenderConfig, s: Sender, w: Wake) {
    w.Tick? && (IsAlone(cfg, s) || (|Payload(cfg, s, w)| <= LIMIT
                                    && Coming(cfg, s, w).batch.events >= Max(1, cfg.eventsPerWrite)))
  }

  /** A loop that stood at `s` when it last waited can come to the cut. */
  predicate Reaches(cfg: SenderConfig, link: Link, s: Sender, cut: Cut) {
    match cut
    case AtSelect => true
    case InWrite(w, n) =>
      Writes(cfg, s, w) && n <= |Payload(cfg, s, w)| && (link.breaksAt.Some? ==> |s.wire| + n <= link.breaksAt.value)
    case AtLock(w) => Writes(cfg, s, w) && !IsAlone(cfg, s) && !link.Breaks(s.wire, |Payload(cfg, s, w)|)
  }

  /** The loop as it stands at the cut. */
  function Standing(cfg: SenderConfig, link: Link, s: Sender, cut: Cut): Sender
    requires Reaches(cfg, link, s, cut)
  {
    match cut
    case AtSelect => s
    case InWrite(w, n) => Coming(cfg, s, w).(wire := s.wire + Payload(cfg, s, w)[..n])
    case AtLock(w) =>
      var c := Coming(cfg, s, w);
      c.(wire := s.wire + c.batch.bytes, sent := c.sent + c.batch.events)
  }

  /** The cuts lie on the loop's way: a tick that is not cut goes on from each of them to where the loop comes. */
  lemma TickPassesCuts(cfg: SenderConfig, link: Link, s: Sender, w: Wake)
    requires Going(cfg, s) && Writes(cfg, s, w) && !link.Breaks(s.wire, |Payload(cfg, s, w)|)
    ensures var (next, flow) := Emit(cfg, link, s, Make(cfg, s.count, w)); var c := Coming(cfg, s, w);
      && flow == Running && next.wire == s.wire + Payload(cfg, s, w)
      && (if IsAlone(cfg, s) then next == c.(wire := next.wire, sent := c.sent + 1)
          else next == Standing(cfg, link, s, AtLock(w)).(flushed := c.flushed + c.batch.correlations, batch := EMPTY))
  {
    TickMakes(cfg, s, w);
    if IsAlone(cfg, s) {
      OversizeMeetsEmptyBatch(cfg, s);
      hide Make, Going;
      AloneGoes(link, Made(s, Make(cfg, s.count, w)), Make(cfg, s.count, w));
    } else {
      hide Make, Going;
      BatchGoes(cfg, link, s, Make(cfg, s.count, w));
    }
    hide SendAlone, SendBatched;
  }

  /** A tick comes to a write exactly if it ends with a failed one, or goes on with nothing held. */
  lemma TickWritesExactly(cfg: SenderConfig, link: Link, s: Sender, w: Wake)
    requires Going(cfg, s) && w.Tick?
    ensures var (next, flow) := Emit(cfg, link, s, Make(cfg, s.count, w));
      Writes(cfg, s, w) <==> flow == Ended(WriteFailed) || (flow == Running && next.batch == EMPTY)
  {
    TickMakes(cfg, s, w);
    if IsAlone(cfg, s) {
      OversizeMeetsEmptyBatch(cfg, s);
    }
    hide Make, Going, Marks, Link.Carry, Link.Breaks;
  }

  lemma AloneGoes(link: Link, s: Sender, e: Event)
    requires s.batch == EMPTY && !link.Breaks(s.wire, |e.xml|)
    ensures SendAlone(link, s, e) == (s.(wire := s.wire + e.xml, sent := s.sent + 1), Running)
  {
  }

  lemma BatchGoes(cfg: SenderConfig, link: Link, s: Sender, e: Event)
    requires e.xml != [] && !link.Breaks(s.wire, |s.batch.bytes + e.xml|) && |s.batch.bytes + e.xml| <= LIMIT
    requires s.batch.events + 1 >= Max(1, cfg.eventsPerWrite)
    ensures var c := Append(Made(s, e), e);
      SendBatched(cfg, link, Made(s, e), e) ==
      (c.(wire := s.wire + c.batch.bytes, sent := c.sent + c.batch.events,
          flushed := c.flushed + c.batch.correlations, batch := EMPTY), Running)
  {
    hide Marks;
  }

  /** One connection's send loop of a participant, and how it ended. */
  datatype Loop = Loop(role: P.Role, cfg: SenderConfig, conn: Connection, ending: Ending)
  {
    /** Only in the send-receive role does anyone drop it. */
    ghost predicate Possible() {
      var (s, flow) := Run(cfg, conn.link, Start(), conn.wakes);
      match ending
      case Returned => flow.Ended?
      case Dropped(cut) => role.SendReceive? && flow.Running? && Reaches(cfg, conn.link, s, cut)
    }

    ghost function End(): Sender
      requires Possible()
    {
      match ending
      case Returned => conn.Final(cfg)
      case Dropped(cut) => Standing(cfg, conn.link, conn.Final(cfg), cut)
    }

    /** The events in its batch when it was dropped, with the one in hand if it stood in a write. */
    function Lost(): nat {
      match ending
      case Returned => 0
      case Dropped(AtSelect) => conn.Final(cfg).batch.events
      case Dropped(InWrite(_, _)) => conn.Final(cfg).batch.events + 1
      case Dropped(AtLock(_)) => 0
    }

    ghost predicate AccountsFor() {
      Possible() ==> |End().produced| == End().sent + End().dropped + Lost()
    }
  }

  lemma CutProduces(cfg: SenderConfig, link: Link, s: Sender, cut: Cut)
    requires Going(cfg, s) && Reaches(cfg, link, s, cut)
    ensures var at := Standing(cfg, link, s, cut);
      |at.produced| == at.sent + at.dropped +
        match cut case AtSelect => s.batch.events case InWrite(_, _) => s.batch.events + 1 case AtLock(_) => 0
  {
  }

  /** Every event is counted as sent or as dropped, or is lost with its loop. */
  lemma LoopAccounts(l: Loop)
    ensures l.AccountsFor()
  {
    ProducedIsSentOrDropped(l.cfg, l.conn.link, l.conn.wakes);
    StartIsGoing(l.cfg);
    RunKept(l.cfg, l.conn.link, Start(), l.conn.wakes);
    hide Run, Going, Settled;
    if l.Possible() && l.ending.Dropped? {
      CutProduces(l.cfg, l.conn.link, l.conn.Final(l.cfg), l.ending.cut);
    }
  }

  // ---- the whole run ----

  /** The loops of all participants and all their connections, in any order. */
  ghost predicate AllPossible(loops: seq<Loop>) {
    forall l :: l in loops ==> l.Possible()
  }

  ghost function ProducedBy(loops: seq<Loop>): nat
    requires AllPossible(loops)
  {
    if loops == [] then 0 else |loops[0].End().produced| + ProducedBy(loops[1..])
  }

  ghost function SentBy(loops: seq<Loop>): nat
    requires AllPossible(loops)
  {
    if loops == [] then 0 else loops[0].End().sent + SentBy(loops[1..])
  }

  ghost function DroppedBy(loops: seq<Loop>): nat
    requires AllPossible(loops)
  {
    if loops == [] then 0 else loops[0].End().dropped + DroppedBy(loops[1..])
  }

  function LostWith(loops: seq<Loop>): nat {
    if loops == [] then 0 else loops[0].Lost() + LostWith(loops[1..])
  }

  /** Over a whole run the counters miss exactly what was lost with the loops that were dropped. */
  lemma {:induction false} CountersMissTheLost(loops: seq<Loop>)
    requires AllPossible(loops)
    ensures ProducedBy(loops) == SentBy(loops) + DroppedBy(loops) + LostWith(loops)
    decreases |loops|
  {
    if loops != [] {
      LoopAccounts(loops[0]);
      assert loops[0] in loops && forall l :: l in loops[1..] ==> l in loops;
      hide Loop.Possible, Loop.End, Loop.Lost;
      CountersMissTheLost(loops[1..]);
    }
  }

  lemma {:induction false} LostNothing(loops: seq<Loop>)
    ensures LostWith(loops) == 0 <==> forall l :: l in loops ==> l.Lost() == 0
    decreases |loops|
  {
    if loops != [] {
      LostNothing(loops[1..]);
      hide Loop.Lost;
      assert forall l :: l in loops <==> l == loops[0] || l in loops[1..];
    }
  }

  /** The loop returned, or was dropped with nothing on its hands: between two batches, or behind a write. */
  predicate Whole(l: Loop) {
    || l.ending.Returned?
    || l.ending.cut.AtLock?
    || (l.ending.cut.AtSelect? && l.conn.Final(l.cfg).batch.events == 0)
  }

  lemma WholeLosesNothing(l: Loop)
    ensures l.Lost() == 0 <==> Whole(l)
  {
    hide Run;
  }

  /** The counters of a run balance if and only if every loop returned or was dropped with nothing on its hands. */
  lemma BalancedExactly(loops: seq<Loop>)
    requires AllPossible(loops)
    ensures ProducedBy(loops) == SentBy(loops) + DroppedBy(loops) <==> forall l :: l in loops ==> Whole(l)
  {
    CountersMissTheLost(loops);
    LostNothing(loops);
    hide ProducedBy, SentBy, DroppedBy, LostWith, Whole, Loop.Lost;
    forall l | l in loops
      ensures l.Lost() == 0 <==> Whole(l)
    {
      WholeLosesNothing(l);
    }
  }

  // ---- how much is lost ----

  predicate Below(cfg: SenderConfig, result: (Sender, Flow)) {
    result.1.Running? ==> result.0.batch.events < Max(1, cfg.eventsPerWrite)
  }

  lemma StepStaysBelow(cfg: SenderConfig, link: Link, s: Sender, w: Wake)
    requires Below(cfg, (s, Running))
    ensures Below(cfg, Step(cfg, link, s, w))
  {
    if w.Tick? {
      TickMakes(cfg, s, w);
      hide Make, Marks;
    }
  }

  lemma {:induction false} RunStaysBelow(cfg: SenderConfig, link: Link, s: Sender, wakes: seq<Wake>)
    requires Below(cfg, (s, Running))
    ensures Below(cfg, Run(cfg, link, s, wakes))
    decreases |wakes|
  {
    if wakes != [] {
      StepStaysBelow(cfg, link, s, wakes[0]);
      hide Step;
      if Step(cfg, link, s, wakes[0]).1.Running? {
        RunStaysBelow(cfg, link, Step(cfg, link, s, wakes[0]).0, wakes[1..]);
      }
    }
  }

  /** A loop loses a batch at most, and less than one if it waits for a wake-up; so nothing if events go singly. */
  lemma AtMostABatch(l: Loop)
    requires l.Possible()
    ensures l.Lost() <= Max(1, l.cfg.eventsPerWrite)
    ensures l.ending == Dropped(AtSelect) ==> l.Lost() < Max(1, l.cfg.eventsPerWrite)
  {
    RunStaysBelow(l.cfg, l.conn.link, Start(), l.conn.wakes);
    hide Run, Reaches;
  }

  // ---- whose runs always balance ----

  ghost predicate AlwaysBalances(role: P.Role) {
    forall loops: seq<Loop> :: AllPossible(loops) && (forall l :: l in loops ==> l.role == role) ==>
      ProducedBy(loops) == SentBy(loops) + DroppedBy(loops)
  }

  /** Three events to a write. */
  function Batching(): SenderConfig { SenderConfig([], 3, [], true, None, Some(1), false, 0) }

  function OneTick(): Wake { Tick([], 0, [], []) }

  /** Dropped while it waits for its second tick. */
  function DroppedEarly(): Loop {
    Loop(P.SendReceive, Batching(), Connection(0, 0, SOUND, [OneTick()]), Dropped(AtSelect))
  }

  /** An event that fits into a batch that is not complete yet. */
  lemma EventIsHeld(cfg: SenderConfig, link: Link, s: Sender, e: Event)
    requires e.invalid != Some(OversizedFrame) && |s.batch.bytes + e.xml| <= LIMIT
    requires s.batch.events + 1 < cfg.eventsPerWrite
    ensures Emit(cfg, link, s, e) == (Append(Made(s, e), e), Running)
  {
    hide Marks;
  }

  lemma FirstIsMade(e: Event)
    ensures var s := Append(Made(Start(), e), e);
      |s.produced| == s.batch.events == 1 && s.sent == s.dropped == 0
  {
    hide Marks;
  }

  lemma OneTickMakes()
    ensures var e := Make(Batching(), 0, OneTick());
      e.invalid == Some(MalformedXml) && |Start().batch.bytes + e.xml| <= LIMIT
  {
    hide PositionOf, PositionEvent.ToXml;
    var e := Make(Batching(), 0, OneTick());
    assert e.xml == "<event";
    assert Start().batch.bytes == [];
  }

  lemma OneTickIsHeld()
    ensures var (next, flow) := Step(Batching(), SOUND, Start(), OneTick());
      && flow == Running && |next.produced| == next.batch.events == 1 && next.sent == next.dropped == 0
  {
    var e := Make(Batching(), 0, OneTick());
    OneTickMakes();
    hide Make;
    EventIsHeld(Batching(), SOUND, Start(), e);
    hide Emit;
    FirstIsMade(e);
    hide Append, Made;
  }

  /** One event is produced, held for two more, and neither sent nor counted as dropped. */
  lemma HeldEventIsLost()
    ensures var l := DroppedEarly();
      l.Possible() && |l.End().produced| == 1 && l.End().sent == 0 && l.End().dropped == 0 && l.Lost() == 1
  {
    var wakes := [OneTick()];
    OneTickIsHeld();
    hide Step, Batching;
    RunOn(Batching(), SOUND, Start(), wakes);
    assert wakes[1..] == [];
  }

  /** In which roles the counters balance whatever happens: all but the send-receive role. */
  lemma AlwaysBalancesExactly(role: P.Role)
    ensures AlwaysBalances(role) <==> role != P.SendReceive
  {
    hide ProducedBy, SentBy, DroppedBy;
    if role == P.SendReceive {
      var loops := OneIsLost();
    } else {
      forall loops: seq<Loop> | AllPossible(loops) && forall l :: l in loops ==> l.role == role
        ensures ProducedBy(loops) == SentBy(loops) + DroppedBy(loops)
      {
        OthersBalance(loops);
      }
    }
  }

  lemma OneIsLost() returns (loops: seq<Loop>)
    ensures AllPossible(loops) && forall l :: l in loops ==> l.role == P.SendReceive
    ensures ProducedBy(loops) != SentBy(loops) + DroppedBy(loops)
  {
    loops := [DroppedEarly()];
    HeldEventIsLost();
    hide Loop.Possible, Loop.End, Loop.Lost, ProducedBy, SentBy, DroppedBy, Whole;
    BalancedExactly(loops);
    WholeLosesNothing(DroppedEarly());
    assert DroppedEarly() in loops;
  }

  lemma OthersBalance(loops: seq<Loop>)
    requires AllPossible(loops) && forall l :: l in loops ==> l.role != P.SendReceive
    ensures ProducedBy(loops) == SentBy(loops) + DroppedBy(loops)
  {
    hide ProducedBy, SentBy, DroppedBy, Run, Reaches;
    BalancedExactly(loops);
  }
}
