/**
 The send loop as it runs: it updates the batch, the writer, the shared metrics and the shared ledger in
 place, and is proved to leave them as the function `Sender.Run` says, whatever other tasks do to the metrics
 and the ledger meanwhile.
 */
module SendLoop {
  import opened Wrappers
  import opened Marker
  import opened Numbers
  import opened Outgoing
  import opened Sender
  import opened Metrics
  import opened SharedLedger
  import Ledger

  class OutgoingBatch {
    var bytes: Bytes
    var correlations: seq<Correlation>
    var events: nat

    constructor ()
      ensures Value() == EMPTY
    {
      bytes, correlations, events := [], [], 0;
    }

    function Value(): Batch
      reads this
    {
      Batch(bytes, correlations, events)
    }

    method Clear()
      modifies this
      ensures Value() == EMPTY
    {
      bytes, correlations, events := [], [], 0;
    }

    method Add(e: Event)
      modifies this
      ensures Value() == Batch(old(bytes) + e.xml, old(correlations) + Marks([e]), old(events) + 1)
    {
      bytes := bytes + e.xml;
      events := events + 1;
      assert [e][1..] == [];
      if e.invalid.None? {
        correlations := correlations + [e.correlation];
      }
    }
  }

  /** The objects one send loop works on. */
  datatype Desk = Desk(
    writer: ConnectionWriter, metrics: MessageMetrics, ledger: CorrelationLedger, batch: OutgoingBatch)

  ghost function Delta(s: Sender): MessageCounters {
    NO_MESSAGES.(sent := s.sent, dropped := s.dropped, localDropped := s.localDropped, timeouts := s.timeouts)
  }

  /**
   What the shared objects held at some point: this task's part of the metrics at the loop's start; the other
   tasks' part, and the ledger, at the `from`-th flush.
   */
  datatype Base = Base(
    sender: Bytes, tally: MessageCounters, foreign: MessageCounters, log: seq<Ledger.Op>, from: nat)

  /** The marks entered from the `from`-th on. */
  function Since(s: Sender, from: nat): seq<Correlation> {
    if from <= |s.flushed| then s.flushed[from..] else []
  }

  /** The loop's own objects hold what the state says; its part of the metrics is that on top of `tally`. */
  ghost predicate Shows(d: Desk, tally: MessageCounters, s: Sender)
    reads d.writer, d.metrics, d.batch
  {
    && d.writer.wire == s.wire
    && d.metrics.Own() == tally.Plus(Delta(s))
    && d.batch.Value() == s.batch
  }

  /** And nobody else has done anything: the ledger holds what the loop has entered, on top of what it held before. */
  ghost predicate Mirrors(d: Desk, base: Base, s: Sender)
    reads d.writer, d.metrics, d.ledger, d.batch
  {
    && Shows(d, base.tally, s) && d.metrics.foreign == base.foreign
    && d.ledger.Valid() && base.from <= |s.flushed|
    && d.ledger.log == base.log + FlushOps(base.sender, Since(s, base.from))
  }

  /** Entering one batch more. */
  lemma FlushOpsAppend(base: Base, s: Sender, marks: seq<Correlation>)
    requires base.from <= |s.flushed|
    ensures var after := s.(flushed := s.flushed + marks);
      base.log + FlushOps(base.sender, Since(after, base.from)) ==
      base.log + FlushOps(base.sender, Since(s, base.from)) + FlushOps(base.sender, marks)
  {
    var after := s.(flushed := s.flushed + marks);
    assert Since(after, base.from) == Since(s, base.from) + marks;
    assert FlushOps(base.sender, Since(after, base.from)) ==
      FlushOps(base.sender, Since(s, base.from)) + FlushOps(base.sender, marks);
  }

  method DropBatch(d: Desk, ghost base: Base, ghost s: Sender)
    requires Mirrors(d, base, s)
    modifies d.metrics
    ensures Mirrors(d, base, LocalDrop(s))
  {
    d.metrics.RecordLocalDrop(d.batch.events);
  }

  method FlushBatch(d: Desk, cfg: SenderConfig, ghost base: Base, ghost s: Sender) returns (flow: Flow)
    requires Mirrors(d, base, s) && base.sender == cfg.participant
    modifies d.writer, d.metrics, d.ledger, d.batch
    ensures Mirrors(d, base, Flush(d.writer.link, s).0) && flow == Flush(d.writer.link, s).1
  {
    if d.batch.bytes == [] {
      return Running;
    }
    var ok := WriteFragmented(d.writer, d.batch.bytes, cfg.chunkSizes);
    FlushOpsAppend(base, s, s.batch.correlations);
    hide Link.Carry, Link.Breaks, FlushOps;
    if !ok {
      d.metrics.RecordWriteFailure(d.batch.events, d.writer.link.timedOut);
      return Ended(WriteFailed);
    }
    d.metrics.sent := d.metrics.sent + d.batch.events;
    d.ledger.RecordFlush(cfg.participant, d.batch.correlations);
    d.batch.Clear();
    return Running;
  }

  method EmitAlone(d: Desk, cfg: SenderConfig, e: Event, ghost base: Base, ghost s: Sender) returns (flow: Flow)
    requires Mirrors(d, base, s) && base.sender == cfg.participant
    modifies d.writer, d.metrics, d.ledger, d.batch
    ensures Mirrors(d, base, SendAlone(d.writer.link, s, e).0)
    ensures flow == SendAlone(d.writer.link, s, e).1
  {
    hide Flush, Link.Carry, Link.Breaks;
    flow := FlushBatch(d, cfg, base, s);
    if flow.Ended? {
      return;
    }
    var ok := WriteFragmented(d.writer, e.xml, cfg.chunkSizes);
    if !ok {
      d.metrics.RecordWriteFailure(1, d.writer.link.timedOut);
      return Ended(WriteFailed);
    }
    d.metrics.sent := d.metrics.sent + 1;
  }

  method EmitBatched(d: Desk, cfg: SenderConfig, e: Event, ghost base: Base, ghost s: Sender) returns (flow: Flow)
    requires Mirrors(d, base, s) && base.sender == cfg.participant
    modifies d.writer, d.metrics, d.ledger, d.batch
    ensures Mirrors(d, base, SendBatched(cfg, d.writer.link, s, e).0)
    ensures flow == SendBatched(cfg, d.writer.link, s, e).1
  {
    hide Flush, Marks;
    d.batch.Add(e);
    if |d.batch.bytes| > LIMIT {
      DropBatch(d, base, Append(s, e));
      return Ended(BatchTooLarge);
    }
    if d.batch.events >= Max(1, cfg.eventsPerWrite) {
      flow := FlushBatch(d, cfg, base, Append(s, e));
      return;
    }
    return Running;
  }

  method EmitEvent(d: Desk, cfg: SenderConfig, e: Event, ghost base: Base, ghost s: Sender) returns (flow: Flow)
    requires Mirrors(d, base, s) && base.sender == cfg.participant
    modifies d.writer, d.metrics, d.ledger, d.batch
    ensures Mirrors(d, base, Emit(cfg, d.writer.link, s, e).0) && flow == Emit(cfg, d.writer.link, s, e).1
  {
    hide SendAlone, SendBatched;
    if e.invalid == Some(OversizedFrame) {
      flow := EmitAlone(d, cfg, e, base, Made(s, e));
    } else {
      flow := EmitBatched(d, cfg, e, base, Made(s, e));
    }
  }

  /** A tick; `count` is the loop's event counter. */
  method EmitNext(d: Desk, cfg: SenderConfig, count: nat, w: Wake, ghost base: Base, ghost s: Sender)
    returns (flow: Flow, next: nat)
    requires Mirrors(d, base, s) && base.sender == cfg.participant && count == s.count && w.Tick?
    modifies d.writer, d.metrics, d.ledger, d.batch
    ensures var after := OnTick(cfg, d.writer.link, s, w);
      Mirrors(d, base, after.0) && flow == after.1 && next == after.0.count
  {
    var e := Make(cfg, count, w);
    next := count + 1;
    EmitCounts(cfg, d.writer.link, s, e);
    hide Emit, Make, Mirrors;
    flow := EmitEvent(d, cfg, e, base, s);
    if flow.Running? && cfg.abruptEnabled && next >= Max(1, cfg.abruptAfter) {
      DropBatch(d, base, Emit(cfg, d.writer.link, s, e).0);
      flow := Ended(Finished);
    }
  }

  /** One wake-up. */
  method Awake(d: Desk, cfg: SenderConfig, count: nat, w: Wake, ghost base: Base, ghost s: Sender)
    returns (flow: Flow, next: nat)
    requires Mirrors(d, base, s) && base.sender == cfg.participant && count == s.count
    modifies d.writer, d.metrics, d.ledger, d.batch
    ensures var after := Step(cfg, d.writer.link, s, w);
      Mirrors(d, base, after.0) && flow == after.1 && next == after.0.count
  {
    hide OnTick, Mirrors;
    next := count;
    match w
    case Tick(_, _, _, _) => flow, next := EmitNext(d, cfg, count, w, base, s);
    case StopChanged(stopping) =>
      if stopping {
        DropBatch(d, base, s);
        return Ended(Finished), count;
      }
      flow := Running;
    case Deadline =>
      DropBatch(d, base, s);
      flow := Ended(Finished);
  }

  lemma EmitCounts(cfg: SenderConfig, link: Link, s: Sender, e: Event)
    ensures Emit(cfg, link, s, e).0.count == s.count + 1
  {
  }

  /** What the tasks enter in the ledger while the loop runs; `others(i)` is what the others do before wake `i`. */
  ghost function Woven(cfg: SenderConfig, link: Link, s: Sender, wakes: seq<Wake>, others: nat -> Meanwhile,
                       i: nat): seq<Ledger.Op>
    decreases |wakes|
  {
    if wakes == [] then []
    else
      var (next, flow) := Step(cfg, link, s, wakes[0]);
      others(i).ops + FlushOps(cfg.participant, Since(next, |s.flushed|))
      + if flow.Ended? then [] else Woven(cfg, link, next, wakes[1..], others, i + 1)
  }

  /** What the others add to the counters while the loop runs. */
  ghost function OthersCount(cfg: SenderConfig, link: Link, s: Sender, wakes: seq<Wake>, others: nat -> Meanwhile,
                             i: nat): MessageCounters
    decreases |wakes|
  {
    if wakes == [] then NO_MESSAGES
    else
      var (next, flow) := Step(cfg, link, s, wakes[0]);
      others(i).counts.Plus(
        if flow.Ended? then NO_MESSAGES else OthersCount(cfg, link, next, wakes[1..], others, i + 1))
  }

  /** Others touch the shared objects; the loop's own state is as it was. */
  method LetOthersGo(d: Desk, cfg: SenderConfig, others: Meanwhile, ghost tally: MessageCounters, ghost s: Sender)
    returns (ghost base: Base)
    requires Shows(d, tally, s) && d.ledger.Valid()
    modifies d.metrics, d.ledger
    ensures Mirrors(d, base, s)
    ensures base == Base(cfg.participant, tally, old(d.metrics.foreign).Plus(others.counts),
                         old(d.ledger.log) + others.ops, |s.flushed|)
  {
    d.ledger.Interleave(others.ops);
    d.metrics.Meanwhile(others.counts);
    base := Base(cfg.participant, tally, d.metrics.foreign, d.ledger.log, |s.flushed|);
    assert d.ledger.log == base.log + FlushOps(base.sender, Since(s, base.from));
  }

  /** One turn of the loop: others touch the shared objects, then the loop wakes up. */
  method TakeTurn(d: Desk, cfg: SenderConfig, count: nat, w: Wake, others: Meanwhile,
                  ghost tally: MessageCounters, ghost s: Sender)
    returns (flow: Flow, next: nat)
    requires Shows(d, tally, s) && d.ledger.Valid() && count == s.count
    modifies d.writer, d.metrics, d.ledger, d.batch
    ensures var after := Step(cfg, d.writer.link, s, w);
      && Shows(d, tally, after.0) && flow == after.1 && next == after.0.count
      && d.ledger.Valid()
      && SceneOf(d.metrics, d.ledger) == old(SceneOf(d.metrics, d.ledger)).Then(
           others.ops + FlushOps(cfg.participant, Since(after.0, |s.flushed|)), others.counts)
  {
    hide Step, Shows, FlushOps, Since;
    ghost var base := LetOthersGo(d, cfg, others, tally, s);
    ghost var own := FlushOps(cfg.participant, Since(Step(cfg, d.writer.link, s, w).0, |s.flushed|));
    assert old(d.ledger.log) + others.ops + own == old(d.ledger.log) + (others.ops + own);
    flow, next := Awake(d, cfg, count, w, base, s);
  }

  /** How far the others have got: the log, and their part of the counters. */
  datatype Scene = Scene(log: seq<Ledger.Op>, foreign: MessageCounters)
  {
    function Then(ops: seq<Ledger.Op>, counts: MessageCounters): Scene { Scene(log + ops, foreign.Plus(counts)) }
  }

  /** What the state and the scene will be once the wakes from the `i`-th on are handled. */
  ghost function Goal(cfg: SenderConfig, link: Link, wakes: seq<Wake>, others: nat -> Meanwhile, i: nat,
                      s: Sender, flow: Flow, scene: Scene): ((Sender, Flow), Scene)
    requires i <= |wakes|
  {
    if flow.Ended? then ((s, flow), scene)
    else
      (Run(cfg, link, s, wakes[i..]),
       scene.Then(Woven(cfg, link, s, wakes[i..], others, i), OthersCount(cfg, link, s, wakes[i..], others, i)))
  }

  lemma GoalStep(cfg: SenderConfig, link: Link, wakes: seq<Wake>, others: nat -> Meanwhile, i: nat,
                 s: Sender, scene: Scene)
    requires i < |wakes|
    ensures var (next, flow) := Step(cfg, link, s, wakes[i]);
      Goal(cfg, link, wakes, others, i, s, Running, scene) ==
      Goal(cfg, link, wakes, others, i + 1, next, flow,
           scene.Then(others(i).ops + FlushOps(cfg.participant, Since(next, |s.flushed|)), others(i).counts))
  {
    hide Step, FlushOps, Since;
    assert wakes[i..][0] == wakes[i] && wakes[i..][1..] == wakes[i + 1..];
    var (next, flow) := Step(cfg, link, s, wakes[i]);
    var log, turn := scene.log, others(i).ops + FlushOps(cfg.participant, Since(next, |s.flushed|));
    if flow.Running? {
      var rest := Woven(cfg, link, next, wakes[i + 1..], others, i + 1);
      assert log + (turn + rest) == log + turn + rest;
    } else {
      assert log + (turn + []) == log + turn;
    }
  }

  lemma GoalEnds(cfg: SenderConfig, link: Link, wakes: seq<Wake>, others: nat -> Meanwhile, i: nat, s: Sender,
                 flow: Flow, scene: Scene)
    requires i == |wakes| || (i < |wakes| && flow.Ended?)
    ensures Goal(cfg, link, wakes, others, i, s, flow, scene) == ((s, flow), scene)
  {
    assert wakes[|wakes|..] == [] && scene.log + [] == scene.log;
  }

  ghost function SceneOf(metrics: MessageMetrics, ledger: CorrelationLedger): Scene
    reads metrics, ledger
  {
    Scene(ledger.log, metrics.foreign)
  }

  /**
   The loop.  `wakes` is what `select!` woke up to; if they run out the loop is still waiting.
   */
  method SendPositions(writer: ConnectionWriter, cfg: SenderConfig, metrics: MessageMetrics,
                       ledger: CorrelationLedger, wakes: seq<Wake>, others: nat -> Meanwhile)
    returns (flow: Flow, batch: OutgoingBatch)
    requires writer.wire == [] && ledger.Valid()
    modifies writer, metrics, ledger
    ensures var (s, f) := Run(cfg, writer.link, Start(), wakes);
      flow == f && fresh(batch) && Shows(Desk(writer, metrics, ledger, batch), old(metrics.Own()), s)
    ensures ledger.Valid()
    ensures SceneOf(metrics, ledger) == old(SceneOf(metrics, ledger)).Then(
        Woven(cfg, writer.link, Start(), wakes, others, 0), OthersCount(cfg, writer.link, Start(), wakes, others, 0))
  {
    batch := new OutgoingBatch();
    var d := Desk(writer, metrics, ledger, batch);
    assert wakes[0..] == wakes;
    hide Run, Woven, OthersCount, CorrelationLedger.Valid;
    ghost var s;
    flow, s := EmitAll(d, cfg, wakes, others, metrics.Own());
  }

  /** The loop, on the objects of its desk; `s` is the state it comes to. */
  method EmitAll(d: Desk, cfg: SenderConfig, wakes: seq<Wake>, others: nat -> Meanwhile, ghost tally: MessageCounters)
    returns (flow: Flow, ghost s: Sender)
    requires Shows(d, tally, Start()) && d.ledger.Valid()
    modifies d.writer, d.metrics, d.ledger, d.batch
    ensures Shows(d, tally, s) && d.ledger.Valid()
    ensures ((s, flow), SceneOf(d.metrics, d.ledger)) ==
            Goal(cfg, d.writer.link, wakes, others, 0, Start(), Running, old(SceneOf(d.metrics, d.ledger)))
  {
    s := Start();
    var count, i := 0, 0;
    flow := Running;
    ghost var goal := Goal(cfg, d.writer.link, wakes, others, 0, s, flow, SceneOf(d.metrics, d.ledger));
    hide Step, Goal, Shows, SceneOf, CorrelationLedger.Valid;
    while i < |wakes| && flow.Running?
      invariant 0 <= i <= |wakes| && count == s.count
      invariant Shows(d, tally, s) && d.ledger.Valid()
      invariant Goal(cfg, d.writer.link, wakes, others, i, s, flow, SceneOf(d.metrics, d.ledger)) == goal
      decreases |wakes| - i
    {
      GoalStep(cfg, d.writer.link, wakes, others, i, s, SceneOf(d.metrics, d.ledger));
      flow, count := TakeTurn(d, cfg, count, wakes[i], others(i), tally, s);
      s, i := Step(cfg, d.writer.link, s, wakes[i]).0, i + 1;
    }
    GoalEnds(cfg, d.writer.link, wakes, others, i, s, flow, SceneOf(d.metrics, d.ledger));
  }

  // ---- whose operations they are ----

  /** What the others enter while the loop runs. */
  ghost function OthersIn(cfg: SenderConfig, link: Link, s: Sender, wakes: seq<Wake>, others: nat -> Meanwhile,
                          i: nat): seq<Ledger.Op>
    decreases |wakes|
  {
    if wakes == [] then []
    else
      var (next, flow) := Step(cfg, link, s, wakes[0]);
      others(i).ops + if flow.Ended? then [] else OthersIn(cfg, link, next, wakes[1..], others, i + 1)
  }

  /** No other task flushes in this participant's name. */
  ghost predicate Foreign(others: nat -> Meanwhile, sender: Bytes) {
    forall i: nat :: Ledger.FlushesOf(others(i).ops, sender) == []
  }

  lemma StepEnters(cfg: SenderConfig, link: Link, s: Sender, w: Wake)
    ensures s.flushed <= Step(cfg, link, s, w).0.flushed
  {
    hide Make, Link.Carry, Link.Breaks, Marks;
  }

  lemma {:induction false} RunEnters(cfg: SenderConfig, link: Link, s: Sender, wakes: seq<Wake>)
    ensures s.flushed <= Run(cfg, link, s, wakes).0.flushed
    decreases |wakes|
  {
    if wakes != [] {
      StepEnters(cfg, link, s, wakes[0]);
      hide Step;
      RunEnters(cfg, link, Step(cfg, link, s, wakes[0]).0, wakes[1..]);
    }
  }

  lemma FlushOpsOfTwo(sender: Bytes, a: seq<Correlation>, b: seq<Correlation>)
    ensures FlushOps(sender, a + b) == FlushOps(sender, a) + FlushOps(sender, b)
  {
  }

  lemma ThreePieces(a: seq<Ledger.Op>, b: seq<Ledger.Op>, c: seq<Ledger.Op>, task: Bytes)
    ensures Ledger.FlushesOf(a + b + c, task) ==
      Ledger.FlushesOf(a, task) + Ledger.FlushesOf(b, task) + Ledger.FlushesOf(c, task)
    ensures Ledger.ReceiptsOf(a + b + c, task) ==
      Ledger.ReceiptsOf(a, task) + Ledger.ReceiptsOf(b, task) + Ledger.ReceiptsOf(c, task)
  {
    FlushesAppend(a, b, task);
    FlushesAppend(a + b, c, task);
    ReceiptsAppend(a, b, task);
    ReceiptsAppend(a + b, c, task);
  }

  /** For `task`, `all` holds the flushes `own` of `me` and what is `foreign`, each in its order. */
  ghost predicate Merges(all: seq<Ledger.Op>, me: Bytes, own: seq<Correlation>, foreign: seq<Ledger.Op>, task: Bytes) {
    && Ledger.FlushesOf(all, task) == (if task == me then FlushOps(me, own) else Ledger.FlushesOf(foreign, task))
    && Ledger.ReceiptsOf(all, task) == Ledger.ReceiptsOf(foreign, task)
  }

  lemma MergesOn(others: seq<Ledger.Op>, me: Bytes, own: seq<Correlation>, rest: seq<Ledger.Op>,
                 later: seq<Correlation>, foreign: seq<Ledger.Op>, task: Bytes)
    requires Ledger.FlushesOf(others, me) == [] && Merges(rest, me, later, foreign, task)
    ensures Merges(others + FlushOps(me, own) + rest, me, own + later, others + foreign, task)
  {
    FlushOpsOfTwo(me, own, later);
    OwnFlushes(me, own, task);
    ThreePieces(others, FlushOps(me, own), rest, task);
    FlushesAppend(others, foreign, task);
    ReceiptsAppend(others, foreign, task);
    hide FlushOps, Ledger.FlushesOf, Ledger.ReceiptsOf;
  }

  /**
   Among everything entered while the loop runs, its own flushes are its marks in order, and every other
   task's operations are its own in its own order.
   */
  lemma {:induction false} WovenIsInterleaving(cfg: SenderConfig, link: Link, s: Sender, wakes: seq<Wake>,
                                               others: nat -> Meanwhile, i: nat, task: Bytes)
    requires Foreign(others, cfg.participant)
    ensures Merges(Woven(cfg, link, s, wakes, others, i), cfg.participant,
                   Since(Run(cfg, link, s, wakes).0, |s.flushed|),
                   OthersIn(cfg, link, s, wakes, others, i), task)
    decreases |wakes|
  {
    var me := cfg.participant;
    if wakes == [] {
      NothingWoven(cfg, link, s, others, i, task);
    } else {
      var (next, flow) := Step(cfg, link, s, wakes[0]);
      var own, later := Since(next, |s.flushed|), wakes[1..];
      assert Ledger.FlushesOf(others(i).ops, me) == [];
      hide *;
      WovenUnfolds(cfg, link, s, wakes, others, i);
      StepEnters(cfg, link, s, wakes[0]);
      RunEnters(cfg, link, next, later);
      if flow.Ended? {
        NothingWoven(cfg, link, next, others, i, task);
        MergesOn(others(i).ops, me, own, [], [], [], task);
        assert own + [] == own;
      } else {
        WovenIsInterleaving(cfg, link, next, later, others, i + 1, task);
        var final := Run(cfg, link, next, later).0;
        SinceSplits(s, next, final);
        MergesOn(others(i).ops, me, own, Woven(cfg, link, next, later, others, i + 1), Since(final, |next.flushed|),
                 OthersIn(cfg, link, next, later, others, i + 1), task);
      }
    }
  }

  lemma NothingWoven(cfg: SenderConfig, link: Link, s: Sender, others: nat -> Meanwhile, i: nat, task: Bytes)
    ensures Woven(cfg, link, s, [], others, i) == [] && OthersIn(cfg, link, s, [], others, i) == []
    ensures Run(cfg, link, s, []).0 == s && Since(s, |s.flushed|) == []
    ensures Merges([], cfg.participant, [], [], task)
  {
  }

  lemma WovenUnfolds(cfg: SenderConfig, link: Link, s: Sender, wakes: seq<Wake>, others: nat -> Meanwhile, i: nat)
    requires wakes != []
    ensures var (next, flow) := Step(cfg, link, s, wakes[0]); var later := wakes[1..];
      && Woven(cfg, link, s, wakes, others, i) ==
         others(i).ops + FlushOps(cfg.participant, Since(next, |s.flushed|))
         + (if flow.Ended? then [] else Woven(cfg, link, next, later, others, i + 1))
      && OthersIn(cfg, link, s, wakes, others, i) ==
         others(i).ops + (if flow.Ended? then [] else OthersIn(cfg, link, next, later, others, i + 1))
      && Run(cfg, link, s, wakes).0 == (if flow.Ended? then next else Run(cfg, link, next, later).0)
  {
    hide Step, FlushOps, Since;
  }

  lemma SinceSplits(s: Sender, next: Sender, final: Sender)
    requires s.flushed <= next.flushed <= final.flushed
    ensures Since(final, |s.flushed|) == Since(next, |s.flushed|) + Since(final, |next.flushed|)
  {
  }
}
