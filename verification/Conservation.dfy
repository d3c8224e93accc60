/**
 Every event the send loop produces is counted exactly once, as sent or as dropped, on every way out
 of the loop; and what went out is, byte for byte, the first `sent` events in order.
 */
module Conservation {
  import opened Wrappers
  import opened Marker
  import opened Numbers
  import opened Outgoing
  import opened Sender

  function Out(s: Sender): seq<Event> {
    if s.sent <= |s.produced| then s.produced[..s.sent] else s.produced
  }

  function Held(s: Sender): seq<Event> {
    if s.sent <= |s.produced| then s.produced[s.sent..] else []
  }

  lemma {:induction false} XmlOfAppend(a: seq<Event>, b: seq<Event>)
    ensures XmlOf(a + b) == XmlOf(a) + XmlOf(b)
  {
    if a == [] {
      assert a + b == b;
    } else {
      assert (a + b)[1..] == a[1..] + b;
      XmlOfAppend(a[1..], b);
    }
  }

  function MarkOf(e: Event): seq<Correlation> {
    if e.invalid.None? then [e.correlation] else []
  }

  lemma MarksUnfold(events: seq<Event>)
    requires events != []
    ensures Marks(events) == MarkOf(events[0]) + Marks(events[1..])
  {
  }

  lemma {:induction false} MarksAppend(a: seq<Event>, b: seq<Event>)
    ensures Marks(a + b) == Marks(a) + Marks(b)
  {
    if a == [] {
      assert a + b == b;
    } else {
      hide Marks;
      assert (a + b)[0] == a[0] && (a + b)[1..] == a[1..] + b;
      MarksUnfold(a);
      MarksUnfold(a + b);
      MarksAppend(a[1..], b);
    }
  }

  /** An event made as the `k`-th. */
  ghost predicate MadeAt(cfg: SenderConfig, k: nat, e: Event) {
    e.xml != [] && e.invalid == InvalidKind(cfg, k)
  }

  ghost predicate Oversized(e: Event) {
    e.invalid == Some(OversizedFrame)
  }

  ghost predicate Fits(e: Event) {
    |e.xml| <= LIMIT || Oversized(e)
  }

  /** What is true of the events that went out, from the start of a connection to its end. */
  ghost predicate Sound(cfg: SenderConfig, s: Sender) {
    && s.sent <= |s.produced| == s.count
    && (forall k :: 0 <= k < |s.produced| ==> MadeAt(cfg, k, s.produced[k]))
    && (forall e :: e in Out(s) ==> Fits(e))
    && s.flushed == Marks(Out(s))
  }

  /** The loop is going: what is not out is in the batch, and nothing was dropped. */
  ghost predicate Going(cfg: SenderConfig, s: Sender) {
    && Sound(cfg, s)
    && s.wire == XmlOf(Out(s))
    && s.batch == Batch(XmlOf(Held(s)), Marks(Held(s)), |Held(s)|)
    && |s.batch.bytes| <= LIMIT
    && (forall e :: e in Held(s) ==> !Oversized(e) && Fits(e))
    && s.dropped == 0 && s.localDropped == 0 && s.timeouts == 0
  }

  /** The loop has ended: everything produced is sent or dropped, each once. */
  ghost predicate Settled(cfg: SenderConfig, link: Link, s: Sender, outcome: Outcome) {
    && Sound(cfg, s)
    && |s.produced| == s.sent + s.dropped
    && XmlOf(Out(s)) <= s.wire <= XmlOf(s.produced)
    && match outcome
       case WriteFailed =>
         && s.dropped > 0 && s.localDropped == 0 && s.timeouts == (if link.timedOut then s.dropped else 0)
         && (forall e :: e in s.produced ==> Fits(e))
       case Finished =>
         && s.wire == XmlOf(Out(s)) && s.localDropped == s.dropped && s.timeouts == 0
         && (forall e :: e in s.produced ==> Fits(e))
       case BatchTooLarge =>
         && s.wire == XmlOf(Out(s)) && s.localDropped == s.dropped && s.timeouts == 0
  }

  ghost predicate Accounted(cfg: SenderConfig, link: Link, result: (Sender, Flow)) {
    match result.1
    case Running => Going(cfg, result.0)
    case Ended(outcome) => Settled(cfg, link, result.0, outcome)
  }

  lemma SplitProduced(s: Sender)
    requires s.sent <= |s.produced|
    ensures s.produced == Out(s) + Held(s)
    ensures XmlOf(s.produced) == XmlOf(Out(s)) + XmlOf(Held(s))
    ensures Marks(s.produced) == Marks(Out(s)) + Marks(Held(s))
  {
    assert s.produced == Out(s) + Held(s);
    XmlOfAppend(Out(s), Held(s));
    MarksAppend(Out(s), Held(s));
  }

  /**
   The invariant behind the conservation law: an over-sized frame is only ever produced while the
   batch is empty, because invalid events come first and are all of one kind.  So the flush in front
   of it never fails, and the event in hand is never lost there.
   */
  lemma OversizeMeetsEmptyBatch(cfg: SenderConfig, s: Sender)
    requires Going(cfg, s)
    requires InvalidKind(cfg, s.count) == Some(OversizedFrame)
    ensures s.batch == EMPTY && s.sent == |s.produced|
  {
    HeldAreNotOversized(cfg, s);
    assert Held(s) == [];
  }

  lemma HeldAreNotOversized(cfg: SenderConfig, s: Sender)
    requires Going(cfg, s)
    ensures s.sent < |s.produced| ==> InvalidKind(cfg, s.count) != Some(OversizedFrame)
  {
    if s.sent < |s.produced| {
      var last := s.produced[s.count - 1];
      assert last == Held(s)[|Held(s)| - 1] && MadeAt(cfg, s.count - 1, last);
      assert !Oversized(last);
    }
  }

  lemma XmlOfOne(e: Event)
    ensures XmlOf([e]) == e.xml
  {
    assert [e][1..] == [] && e.xml + [] == e.xml;
  }

  lemma MadeIsSound(cfg: SenderConfig, s: Sender, e: Event)
    requires Sound(cfg, s) && MadeAt(cfg, s.count, e)
    ensures Sound(cfg, Made(s, e))
    ensures Out(Made(s, e)) == Out(s) && Held(Made(s, e)) == Held(s) + [e]
  {
    assert Out(Made(s, e)) == Out(s) && Held(Made(s, e)) == Held(s) + [e];
  }

  /** An event no longer than the batch that holds it fits. */
  lemma MadeFits(cfg: SenderConfig, s: Sender, e: Event)
    ensures |Append(Made(s, e), e).batch.bytes| <= LIMIT ==> Fits(e)
  {
  }

  /** The batch goes on mirroring what is held. */
  lemma AppendMirrors(cfg: SenderConfig, s: Sender, e: Event)
    requires Going(cfg, s) && MadeAt(cfg, s.count, e)
    ensures var held := Append(Made(s, e), e);
      && Sound(cfg, held)
      && Out(held) == Out(s) && Held(held) == Held(s) + [e]
      && held.batch == Batch(XmlOf(Held(held)), Marks(Held(held)), |Held(held)|)
  {
    MadeIsSound(cfg, s, e);
    hide MadeAt, Oversized, Fits, Marks, XmlOf;
    XmlOfAppend(Held(s), [e]);
    XmlOfOne(e);
    MarksAppend(Held(s), [e]);
  }

  lemma AppendKept(cfg: SenderConfig, link: Link, s: Sender, e: Event)
    requires Going(cfg, s) && MadeAt(cfg, s.count, e) && !Oversized(e)
    ensures var held := Append(Made(s, e), e);
      if |held.batch.bytes| <= LIMIT then Going(cfg, held)
      else Settled(cfg, link, LocalDrop(held), BatchTooLarge)
  {
    AppendMirrors(cfg, s, e);
    MadeFits(cfg, s, e);
    var held := Append(Made(s, e), e);
    SplitProduced(held);
    hide MadeAt, Oversized, Fits, Marks, XmlOf;
  }

  /** Nothing in the batch means nothing held: no event is empty. */
  lemma NothingHeld(cfg: SenderConfig, s: Sender)
    requires Going(cfg, s) && s.batch.bytes == []
    ensures s.batch == EMPTY
  {
    HeldHasBytes(cfg, s);
  }

  lemma HeldHasBytes(cfg: SenderConfig, s: Sender)
    requires Going(cfg, s)
    ensures Held(s) != [] ==> XmlOf(Held(s)) != []
  {
    if Held(s) != [] {
      assert MadeAt(cfg, s.sent, s.produced[s.sent]);
      assert Held(s)[0] == s.produced[s.sent];
    }
  }

  /** What every state between two writes satisfies; `s.batch` may lag behind `Held(s)`. */
  ghost predicate Writable(cfg: SenderConfig, s: Sender) {
    && Sound(cfg, s)
    && s.wire == XmlOf(Out(s))
    && s.dropped == 0 && s.localDropped == 0 && s.timeouts == 0
    && (forall e :: e in s.produced ==> Fits(e))
  }

  lemma GoingIsWritable(cfg: SenderConfig, s: Sender)
    requires Going(cfg, s)
    ensures Writable(cfg, s)
  {
    hide MadeAt, Fits, Oversized, XmlOf, Marks;
    assert s.produced == Out(s) + Held(s);
  }

  /** A write of everything held that fails settles the account. */
  lemma BreakSettles(cfg: SenderConfig, link: Link, s: Sender)
    requires Writable(cfg, s) && Held(s) != []
    requires link.Breaks(s.wire, |XmlOf(Held(s))|)
    ensures Settled(cfg, link,
                    WriteFailure(s.(wire := link.Carry(s.wire, XmlOf(Held(s)))), link, |Held(s)|), WriteFailed)
  {
    hide MadeAt, Fits, XmlOf, Marks;
    var after := WriteFailure(s.(wire := link.Carry(s.wire, XmlOf(Held(s)))), link, |Held(s)|);
    SplitProduced(s);
    assert Out(after) == Out(s);
  }

  /** A write of everything held that succeeds leaves an empty batch. */
  function AllOut(s: Sender): Sender {
    s.(wire := s.wire + XmlOf(Held(s)), sent := |s.produced|, batch := EMPTY, flushed := s.flushed + Marks(Held(s)))
  }

  /** Everything is out, and an empty batch holds the nothing that is left. */
  lemma AllAreOut(s: Sender)
    requires s.sent <= |s.produced|
    ensures var after := AllOut(s);
      && Out(after) == s.produced && Held(after) == []
      && after.batch == Batch(XmlOf(Held(after)), Marks(Held(after)), |Held(after)|)
    ensures XmlOf(s.produced) == XmlOf(Out(s)) + XmlOf(Held(s))
    ensures Marks(s.produced) == Marks(Out(s)) + Marks(Held(s))
  {
    SplitProduced(s);
  }

  lemma AllOutIsGoing(cfg: SenderConfig, s: Sender)
    requires Writable(cfg, s)
    ensures Going(cfg, AllOut(s))
  {
    AllAreOut(s);
    hide MadeAt, Fits, Oversized, XmlOf, Marks;
  }

  lemma FlushKept(cfg: SenderConfig, link: Link, s: Sender)
    requires Going(cfg, s)
    ensures Accounted(cfg, link, Flush(link, s))
    ensures Flush(link, s).1.Running? ==> Flush(link, s).0.batch == EMPTY
  {
    hide Sound, MadeAt, Fits, Oversized, Marks, Settled;
    GoingIsWritable(cfg, s);
    if s.batch.bytes == [] {
      NothingHeld(cfg, s);
    } else if link.Breaks(s.wire, |s.batch.bytes|) {
      BreakSettles(cfg, link, s);
    } else {
      AllOutIsGoing(cfg, s);
      Balance(cfg, s);
      assert Flush(link, s).0 == AllOut(s);
    }
  }

  lemma Balance(cfg: SenderConfig, s: Sender)
    requires Going(cfg, s)
    ensures s.sent + s.batch.events == |s.produced|
  {
  }

  lemma DropSettles(cfg: SenderConfig, link: Link, s: Sender)
    requires Going(cfg, s)
    ensures Settled(cfg, link, LocalDrop(s), Finished)
  {
    GoingIsWritable(cfg, s);
    SplitProduced(s);
    DropKeepsSound(cfg, s);
    hide MadeAt, Fits, Oversized, Marks, XmlOf, Sound;
  }

  lemma DropKeepsSound(cfg: SenderConfig, s: Sender)
    requires Sound(cfg, s)
    ensures Sound(cfg, LocalDrop(s)) && Out(LocalDrop(s)) == Out(s)
  {
    hide MadeAt, Fits, Oversized, Marks;
  }

  lemma AloneKept(cfg: SenderConfig, link: Link, s: Sender, e: Event)
    requires Going(cfg, s) && MadeAt(cfg, s.count, e) && Oversized(e)
    ensures Accounted(cfg, link, SendAlone(link, Made(s, e), e))
  {
    OversizeMeetsEmptyBatch(cfg, s);
    GoingIsWritable(cfg, s);
    MadeIsSound(cfg, s, e);
    assert Held(s) == [] && Held(Made(s, e)) == [e];
    XmlOfOne(e);
    assert Marks([e]) == [];
    MadeIsWritable(cfg, s, e);
    if link.Breaks(s.wire, |e.xml|) {
      BreakSettles(cfg, link, Made(s, e));
    } else {
      AllOutIsGoing(cfg, Made(s, e));
    }
    hide Sound, MadeAt, Fits, Oversized, XmlOf, Settled, Going, Writable;
  }

  lemma MadeIsWritable(cfg: SenderConfig, s: Sender, e: Event)
    requires Writable(cfg, s) && MadeAt(cfg, s.count, e) && Fits(e)
    ensures Writable(cfg, Made(s, e))
  {
    MadeIsSound(cfg, s, e);
  }

  lemma TickMakes(cfg: SenderConfig, s: Sender, w: Wake)
    requires w.Tick?
    ensures MadeAt(cfg, s.count, Make(cfg, s.count, w))
  {
  }

  lemma BatchedKept(cfg: SenderConfig, link: Link, s: Sender, e: Event)
    requires Going(cfg, s) && MadeAt(cfg, s.count, e) && !Oversized(e)
    ensures Accounted(cfg, link, SendBatched(cfg, link, Made(s, e), e))
  {
    hide Sound, Going, Settled, MadeAt, Flush, LocalDrop;
    AppendKept(cfg, link, s, e);
    var held := Append(Made(s, e), e);
    if |held.batch.bytes| <= LIMIT {
      FlushKept(cfg, link, held);
    }
  }

  lemma EmitKept(cfg: SenderConfig, link: Link, s: Sender, e: Event)
    requires Going(cfg, s) && MadeAt(cfg, s.count, e)
    ensures Accounted(cfg, link, Emit(cfg, link, s, e))
  {
    hide Going, Settled, SendAlone, SendBatched, MadeAt;
    if Oversized(e) {
      AloneKept(cfg, link, s, e);
    } else {
      BatchedKept(cfg, link, s, e);
    }
  }

  /** One wake-up keeps the account. */
  lemma StepKept(cfg: SenderConfig, link: Link, s: Sender, w: Wake)
    requires Going(cfg, s)
    ensures Accounted(cfg, link, Step(cfg, link, s, w))
  {
    hide Going, Settled, MadeAt, Make, Emit, LocalDrop;
    DropSettles(cfg, link, s);
    if w.Tick? {
      var e := Make(cfg, s.count, w);
      TickMakes(cfg, s, w);
      EmitKept(cfg, link, s, e);
      var (next, flow) := Emit(cfg, link, s, e);
      if flow.Running? {
        DropSettles(cfg, link, next);
      }
    }
  }

  /** Over any run, from any going state. */
  lemma {:induction false} RunKept(cfg: SenderConfig, link: Link, s: Sender, wakes: seq<Wake>)
    requires Going(cfg, s)
    ensures Accounted(cfg, link, Run(cfg, link, s, wakes))
    decreases |wakes|
  {
    hide Going, Settled, Step;
    if wakes != [] {
      StepKept(cfg, link, s, wakes[0]);
      var (next, flow) := Step(cfg, link, s, wakes[0]);
      if flow.Running? {
        RunKept(cfg, link, next, wakes[1..]);
      }
    }
  }

  lemma StartIsGoing(cfg: SenderConfig)
    ensures Going(cfg, Start())
  {
  }

  /**
   Conservation: whatever the wake-ups and whenever the link breaks, if the loop returned then what
   it produced is what it counted as sent and as dropped, and every drop is local or a failed write.
   */
  lemma ProducedIsSentOrDropped(cfg: SenderConfig, link: Link, wakes: seq<Wake>)
    ensures var (s, flow) := Run(cfg, link, Start(), wakes);
      && (flow.Ended? ==> |s.produced| == s.sent + s.dropped)
      && (flow.Ended? ==> if flow.outcome == WriteFailed then s.localDropped == 0 else s.localDropped == s.dropped)
      && (flow.Running? ==> |s.produced| == s.sent + s.batch.events && s.dropped == 0)
  {
    StartIsGoing(cfg);
    RunKept(cfg, link, Start(), wakes);
  }

  /** The invalid events of a connection are exactly the first ones, up to the configured bound. */
  lemma InvalidComeFirst(cfg: SenderConfig, link: Link, wakes: seq<Wake>)
    ensures var (s, _) := Run(cfg, link, Start(), wakes);
      forall k :: 0 <= k < |s.produced| ==> (s.produced[k].invalid.Some? <==> k < InvalidBound(cfg))
  {
    StartIsGoing(cfg);
    RunKept(cfg, link, Start(), wakes);
    var (s, _) := Run(cfg, link, Start(), wakes);
    forall k | 0 <= k < |s.produced|
      ensures s.produced[k].invalid.Some? <==> k < InvalidBound(cfg)
    {
      assert MadeAt(cfg, k, s.produced[k]);
    }
  }

  /**
   Were there a batch in front of an over-sized frame, the account would not balance: when its flush
   fails the frame in hand is counted nowhere.
   */
  lemma LeakBehindABatch(cfg: SenderConfig, link: Link, s: Sender, e: Event)
    requires s.batch.bytes != [] && link.Breaks(s.wire, |s.batch.bytes|) && e.invalid == Some(OversizedFrame)
    requires |s.produced| == s.sent + s.dropped + s.batch.events
    ensures var (after, flow) := Emit(cfg, link, s, e);
      flow == Ended(WriteFailed) && |after.produced| == after.sent + after.dropped + 1
  {
  }

  /** Events made from the `from`-th on: those past the bound are marked. */
  lemma {:induction false} MarksPastBound(cfg: SenderConfig, events: seq<Event>, from: nat)
    requires forall k :: 0 <= k < |events| ==> MadeAt(cfg, from + k, events[k])
    ensures |Marks(events)| == |events| - Min(|events|, if from < InvalidBound(cfg) then InvalidBound(cfg) - from else 0)
    decreases |events|
  {
    if events != [] {
      assert MadeAt(cfg, from + 0, events[0]);
      forall k | 0 <= k < |events[1..]|
        ensures MadeAt(cfg, from + 1 + k, events[1..][k])
      {
        assert MadeAt(cfg, from + (k + 1), events[k + 1]);
      }
      MarksPastBound(cfg, events[1..], from + 1);
    }
  }

  /** What a connection enters in the ledger: one id for each event sent that is not invalid. */
  lemma FlushedAreValidSent(cfg: SenderConfig, link: Link, wakes: seq<Wake>)
    ensures var s := Run(cfg, link, Start(), wakes).0;
      s.flushed == Marks(Out(s)) && |s.flushed| == s.sent - Min(s.sent, InvalidBound(cfg))
  {
    StartIsGoing(cfg);
    RunKept(cfg, link, Start(), wakes);
    hide Run, Going, Settled;
    var (s, flow) := Run(cfg, link, Start(), wakes);
    AccountedIsSound(cfg, link, s, flow);
    hide Accounted;
    SoundFlushes(cfg, s);
    hide Sound, Marks, Out, InvalidBound;
  }

  lemma AccountedIsSound(cfg: SenderConfig, link: Link, s: Sender, flow: Flow)
    requires Accounted(cfg, link, (s, flow))
    ensures Sound(cfg, s)
  {
    hide Sound;
  }

  lemma SoundFlushes(cfg: SenderConfig, s: Sender)
    requires Sound(cfg, s)
    ensures s.flushed == Marks(Out(s)) && |s.flushed| == s.sent - Min(s.sent, InvalidBound(cfg))
  {
    hide MadeAt, Fits, Marks;
    assert forall k :: 0 <= k < |Out(s)| ==> MadeAt(cfg, 0 + k, Out(s)[k]);
    MarksPastBound(cfg, Out(s), 0);
  }
}
