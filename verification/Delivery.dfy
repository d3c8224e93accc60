/**
 From flush to verdict: what one participant's send loop flushed, another's read loop enters in the
 ledger, and the routing assertion between the two passes under every schedule.
 */
module Delivery {
  import opened Wrappers
  import opened Marker
  import opened Metrics
  import opened Segmentation
  import opened Outgoing
  import opened CotXml
  import opened Sender
  import opened Conservation
  import opened RoundTrip
  import opened ReadLoop
  import CotReader
  import Decoder
  import opened StreamGrammar
  import opened SharedLedger
  import Ledger
  import Totals
  import opened Cadence

  /** `inspect_event` finds the id of every document that the run can make. */
  ghost predicate Finds(inspect: Inspect, cfg: SenderConfig, wakes: seq<Wake>) {
    forall w :: w in wakes && w.Tick? ==> inspect(PositionOf(cfg, w).ToXml()) == Ok(Some(w.id))
  }

  /** The reader of `CotReader` is such an inspection. */
  function InspectDocument(raw: Bytes): Result<Option<Bytes>, ()> {
    Ok(Some(CotReader.Says(CotReader.ReadTags(raw), "tak_bench", "correlation_id")))
  }

  lemma ReaderFinds(cfg: SenderConfig, wakes: seq<Wake>)
    requires forall w :: w in wakes && w.Tick? ==>
      CotReader.Unquoted(w.time) && CotReader.Unquoted(w.stale) && CotReader.Unquoted(w.id)
    ensures Finds(InspectDocument, cfg, wakes)
  {
    hide CotReader.Says, CotReader.ReadTags, PositionEvent.ToXml;
    forall w | w in wakes && w.Tick?
      ensures InspectDocument(PositionOf(cfg, w).ToXml()) == Ok(Some(w.id))
    {
      CotReader.CorrelationReads(PositionOf(cfg, w));
    }
  }

  ghost predicate Labelled(e: Event, inspect: Inspect) {
    e.invalid.None? && inspect(e.xml) == Ok(Some(e.correlation.0))
  }

  ghost predicate AllLabelled(events: seq<Event>, inspect: Inspect) {
    forall e :: e in events ==> Labelled(e, inspect)
  }

  lemma MadeIsLabelled(cfg: SenderConfig, count: nat, w: Wake, inspect: Inspect)
    requires InvalidBound(cfg) == 0 && w.Tick? && Finds(inspect, cfg, [w])
    ensures Labelled(Make(cfg, count, w), inspect)
  {
    assert w in [w];
    hide PositionEvent.ToXml;
  }

  lemma {:induction false} RunLabels(cfg: SenderConfig, link: Link, s: Sender, wakes: seq<Wake>, inspect: Inspect)
    requires InvalidBound(cfg) == 0 && Finds(inspect, cfg, wakes) && AllLabelled(s.produced, inspect)
    ensures AllLabelled(Run(cfg, link, s, wakes).0.produced, inspect)
    decreases |wakes|
  {
    if wakes != [] {
      var w, next := wakes[0], Step(cfg, link, s, wakes[0]).0;
      StepProduces(cfg, link, s, w);
      hide Step, Labelled, Make;
      if w.Tick? {
        MadeIsLabelled(cfg, s.count, w, inspect);
      }
      assert AllLabelled(next.produced, inspect);
      RunLabels(cfg, link, next, wakes[1..], inspect);
    }
  }

  /** The receipts of flushed events, in order; the first is the `n`-th of the session. */
  function ReceiptsFor(session: Session, marks: seq<Correlation>, n: nat): seq<Ledger.Op> {
    seq(|marks|, i requires 0 <= i < |marks| => Ledger.Received(session.receiver, marks[i].0, session.clock(n + i)))
  }

  /** The same receipts, each behind what others enter before it. */
  function Entered(session: Session, marks: seq<Correlation>, n: nat): seq<Ledger.Op> {
    if marks == [] then []
    else
      session.others(n).ops + [Ledger.Received(session.receiver, marks[0].0, session.clock(n))]
      + Entered(session, marks[1..], n + 1)
  }

  lemma {:induction false} EventsEnterMarks(session: Session, events: seq<Event>, n: nat)
    requires AllLabelled(events, session.inspect)
    ensures session.Ops(Xmls(events), n) == Entered(session, Marks(events), n)
    ensures |Xmls(events)| == |Marks(events)| == |events|
    decreases |events|
  {
    if events != [] {
      assert Labelled(events[0], session.inspect);
      EventsEnterMarks(session, events[1..], n + 1);
      NextMark(session, events, n);
      hide Marks, Entered;
      assert Xmls(events)[1..] == Xmls(events[1..]);
    }
  }

  lemma NextMark(session: Session, events: seq<Event>, n: nat)
    requires events != [] && events[0].invalid.None?
    ensures Marks(events) == [events[0].correlation] + Marks(events[1..])
    ensures Entered(session, Marks(events), n) ==
      session.others(n).ops + [Ledger.Received(session.receiver, events[0].correlation.0, session.clock(n))]
      + Entered(session, Marks(events[1..]), n + 1)
  {
    assert ([events[0].correlation] + Marks(events[1..]))[1..] == Marks(events[1..]);
  }

  /** Of what is entered, the receiver's own receipts are those of the marks. */
  lemma {:induction false} OwnReceipts(session: Session, marks: seq<Correlation>, n: nat)
    requires session.Alone()
    ensures Ledger.ReceiptsOf(Entered(session, marks, n), session.receiver) == ReceiptsFor(session, marks, n)
    decreases |marks|
  {
    if marks != [] {
      var first := Ledger.Received(session.receiver, marks[0].0, session.clock(n));
      var rest := Entered(session, marks[1..], n + 1);
      OwnReceipts(session, marks[1..], n + 1);
      OneReceipt(first);
      ReceiptsUnfold(session, marks, n);
      assert Ledger.ReceiptsOf(session.others(n).ops, session.receiver) == [];
      hide Ledger.ReceiptsOf, ReceiptsFor, Entered, Session.Alone;
      ReceiptsAppend(session.others(n).ops, [first], session.receiver);
      ReceiptsAppend(session.others(n).ops + [first], rest, session.receiver);
    }
  }

  lemma ReceiptsUnfold(session: Session, marks: seq<Correlation>, n: nat)
    requires marks != []
    ensures var first := Ledger.Received(session.receiver, marks[0].0, session.clock(n));
      && ReceiptsFor(session, marks, n) == [first] + ReceiptsFor(session, marks[1..], n + 1)
      && Entered(session, marks, n) == session.others(n).ops + [first] + Entered(session, marks[1..], n + 1)
  {
  }

  lemma OneReceipt(op: Ledger.Op)
    requires op.Received?
    ensures Ledger.ReceiptsOf([op], op.receiver) == [op]
  {
    assert Ledger.Front([op]) == [];
  }

  lemma {:induction false} LabelledAreReadable(events: seq<Event>, inspect: Inspect)
    requires AllLabelled(events, inspect)
    ensures AllReadable(Xmls(events), inspect) && Readable(Xmls(events), inspect) == Xmls(events)
    decreases |events|
  {
    if events != [] {
      assert Labelled(events[0], inspect);
      LabelledAreReadable(events[1..], inspect);
      assert Xmls(events)[1..] == Xmls(events[1..]);
    }
  }

  /** `now` with `n` more events counted, and `ops` entered, while others counted `counts`. */
  function Extended(now: Account, n: nat, ops: seq<Ledger.Op>, counts: MessageCounters): Account {
    Account(now.received + n, now.log + ops, now.earlier, now.foreign.Plus(counts))
  }

  lemma LabelledCloses(session: Session, now: Account, events: seq<Event>)
    requires AllLabelled(events, session.inspect)
    ensures Closing(session, now, Xmls(events), 0) ==
      Extended(now, |events|, Entered(session, Marks(events), 0), session.Counts(Xmls(events), 0))
  {
    EventsEnterMarks(session, events, 0);
    hide AllLabelled, Session.Ops, Marks, Xmls, Entered;
  }

  lemma LabelledOutlook(session: Session, now: Account, events: seq<Event>, rest: Bytes)
    requires AllLabelled(events, session.inspect)
    ensures Outlook(session, now, Fed(Xmls(events), Decoder.More(rest)), 0) ==
            (Extended(now, |events|, Entered(session, Marks(events), 0), session.Counts(Xmls(events), 0)), true)
  {
    LabelledCloses(session, now, events);
    LabelledAreReadable(events, session.inspect);
    hide AllLabelled, Readable, AllReadable, Closing, Marks, Xmls, Entered, Extended;
  }

  lemma SoundLabels(cfg: SenderConfig, s: Sender, inspect: Inspect)
    requires Sound(cfg, s) && AllLabelled(s.produced, inspect)
    ensures AllLabelled(Out(s), inspect) && |Out(s)| == s.sent && s.flushed == Marks(Out(s))
  {
    hide MadeAt, Fits, Marks, Labelled;
  }

  /**
   A whole session on the receiving end of a run: unless a write failed it ends well, counts exactly the
   events counted as sent, and enters exactly the flushed ids, in order, however the bytes arrived.
   */
  lemma {:induction false} FlushedAreReceived(
    cfg: SenderConfig, link: Link, wakes: seq<Wake>, segments: seq<Bytes>, valid: Bytes -> bool,
    session: Session, now: Account)
    requires InvalidBound(cfg) == 0 && Clean(cfg, wakes, valid) && Finds(session.inspect, cfg, wakes)
    requires Flatten(segments) == Run(cfg, link, Start(), wakes).0.wire
    requires Run(cfg, link, Start(), wakes).1 != Ended(WriteFailed)
    ensures var s := Run(cfg, link, Start(), wakes).0;
      Outlook(session, now, Feed([], segments, LIMIT, valid), 0) ==
      (Extended(now, s.sent, Entered(session, s.flushed, 0), session.Counts(Xmls(Out(s)), 0)), true)
  {
    hide Run, Feed, Outlook, Extended, Marks, Out, Clean, Finds, Labelled, Sound;
    SentIsReceived(cfg, link, wakes, segments, valid);
    RunLabels(cfg, link, Start(), wakes, session.inspect);
    StartIsGoing(cfg);
    RunKept(cfg, link, Start(), wakes);
    var s := Run(cfg, link, Start(), wakes).0;
    SoundLabels(cfg, s, session.inspect);
    LabelledOutlook(session, now, Out(s), []);
  }

  // ---- the verdict ----

  ghost predicate DistinctIds(marks: seq<Correlation>) {
    forall i, j :: 0 <= i < j < |marks| ==> marks[i].0 != marks[j].0
  }

  /** The last receipt of each id heard is the one at its place. */
  lemma {:induction false} LastReceiptIs(session: Session, heard: seq<Correlation>, j: nat)
    requires j < |heard| && DistinctIds(heard)
    ensures Ledger.LastReceipt(ReceiptsFor(session, heard, 0), session.receiver, heard[j].0) == Some(session.clock(j))
    decreases |heard|
  {
    var all := ReceiptsFor(session, heard, 0);
    assert Ledger.Front(all) == ReceiptsFor(session, heard[..|heard| - 1], 0);
    if j < |heard| - 1 {
      LastReceiptIs(session, heard[..|heard| - 1], j);
    }
  }

  lemma {:induction false} NoReceiptOf(session: Session, heard: seq<Correlation>, id: Bytes)
    requires forall j :: 0 <= j < |heard| ==> heard[j].0 != id
    ensures Ledger.LastReceipt(ReceiptsFor(session, heard, 0), session.receiver, id) == None
    decreases |heard|
  {
    if heard != [] {
      var all := ReceiptsFor(session, heard, 0);
      assert Ledger.Front(all) == ReceiptsFor(session, heard[..|heard| - 1], 0);
      NoReceiptOf(session, heard[..|heard| - 1], id);
    }
  }

  /** `mark` was heard, and in time. */
  ghost predicate HeardInTime(session: Session, heard: seq<Correlation>, mark: Correlation, timeout: nat) {
    exists j :: 0 <= j < |heard| && heard[j].0 == mark.0 && session.clock(j) <= mark.1 + timeout
  }

  lemma ReceiptsTell(log: seq<Ledger.Op>, session: Session, heard: seq<Correlation>, mark: Correlation, timeout: nat)
    requires DistinctIds(heard) && Ledger.ReceiptsOf(log, session.receiver) == ReceiptsFor(session, heard, 0)
    ensures var last := Ledger.LastReceipt(log, session.receiver, mark.0);
      last.Some? && last.value <= mark.1 + timeout <==> HeardInTime(session, heard, mark, timeout)
  {
    Ledger.LastReceiptIsLocal(log, session.receiver, mark.0);
    hide Ledger.LastReceipt, Ledger.ReceiptsOf, ReceiptsFor;
    if j :| 0 <= j < |heard| && heard[j].0 == mark.0 {
      LastReceiptIs(session, heard, j);
      assert forall k :: 0 <= k < |heard| && heard[k].0 == mark.0 ==> k == j;
    } else {
      NoReceiptOf(session, heard, mark.0);
    }
  }

  lemma FlushesTell(log: seq<Ledger.Op>, sender: Bytes, marks: seq<Correlation>, id: Bytes, at: nat)
    requires Ledger.FlushesOf(log, sender) == FlushOps(sender, marks)
    ensures Ledger.Flushed(sender, id, at) in log <==> (id, at) in marks
  {
    var op := Ledger.Flushed(sender, id, at);
    Ledger.FlushIsLocal(log, sender, op);
    hide Ledger.FlushesOf;
    if (id, at) in marks {
      var i :| 0 <= i < |marks| && marks[i] == (id, at);
      assert FlushOps(sender, marks)[i] == op;
    }
  }

  /**
   In any log, among whatever else any task did: where a sender flushed `marks` and a receiver received
   `heard`, the assertion between them passes exactly when something was flushed and all of it heard in time.
   */
  lemma {:induction false} ExchangePasses(log: seq<Ledger.Op>, sender: Bytes, marks: seq<Correlation>, session: Session,
                                          heard: seq<Correlation>, a: Ledger.RoutingAssertion)
    requires Ledger.FreshIds(log) && a.sender == sender && DistinctIds(heard)
    requires Ledger.FlushesOf(log, sender) == FlushOps(sender, marks)
    requires Ledger.ReceiptsOf(log, session.receiver) == ReceiptsFor(session, heard, 0)
    ensures Ledger.Expected(Ledger.Replay(log), a, session.receiver).passed <==>
      marks != [] && forall m :: m in marks ==> HeardInTime(session, heard, m, Ledger.Timeout(a))
  {
    Ledger.ExpectedReadsLog(log, a, session.receiver);
    hide Ledger.Replay, Ledger.LastReceipt, Ledger.Expected, Ledger.FlushesOf, Ledger.ReceiptsOf, FlushOps, ReceiptsFor;
    hide HeardInTime, Ledger.FreshIds;
    forall id, at: nat
      ensures Ledger.Flushed(sender, id, at) in log <==> (id, at) in marks
    {
      FlushesTell(log, sender, marks, id, at);
    }
    forall m | m in marks
      ensures Ledger.Flushed(sender, m.0, m.1) in log
      ensures var last := Ledger.LastReceipt(log, session.receiver, m.0);
        last.Some? && last.value <= m.1 + Ledger.Timeout(a) <==> HeardInTime(session, heard, m, Ledger.Timeout(a))
    {
      ReceiptsTell(log, session, heard, m, Ledger.Timeout(a));
    }
    if marks != [] {
      assert marks[0] in marks;
    }
  }

  lemma {:induction false} FreshIsLocal(log: seq<Ledger.Op>, sender: Bytes)
    requires Ledger.FreshIds(log)
    ensures Ledger.FreshIds(Ledger.FlushesOf(log, sender))
    decreases |log|
  {
    if log != [] {
      var front, op := Ledger.Front(log), Ledger.Last(log);
      FreshFront(log);
      FreshIsLocal(front, sender);
      if op.Flushed? && op.sender == sender {
        Ledger.LastIsFresh(log);
        forall other | other in Ledger.FlushesOf(front, sender)
          ensures other.Flushed? && other in front
        {
          FlushesAreInLog(front, sender, other);
        }
        FreshPush(Ledger.FlushesOf(front, sender), op);
      }
    }
  }

  lemma {:induction false} FlushesAreInLog(log: seq<Ledger.Op>, sender: Bytes, op: Ledger.Op)
    requires op in Ledger.FlushesOf(log, sender)
    ensures op.Flushed? && op in log
    decreases |log|
  {
    if log != [] {
      assert log == Ledger.Front(log) + [Ledger.Last(log)];
      if op in Ledger.FlushesOf(Ledger.Front(log), sender) {
        FlushesAreInLog(Ledger.Front(log), sender, op);
      }
    }
  }

  lemma FreshPush(ops: seq<Ledger.Op>, op: Ledger.Op)
    requires Ledger.FreshIds(ops) && op.Flushed? && forall o :: o in ops ==> o.Flushed? && o.id != op.id
    ensures Ledger.FreshIds(ops + [op])
  {
    forall i, j | 0 <= i < j < |ops + [op]| && (ops + [op])[i].Flushed? && (ops + [op])[j].Flushed?
      ensures (ops + [op])[i].id != (ops + [op])[j].id
    {
      if j == |ops| {
        assert ops[i] in ops;
      }
    }
  }

  lemma FreshMarks(log: seq<Ledger.Op>, sender: Bytes, marks: seq<Correlation>)
    requires Ledger.FreshIds(log) && Ledger.FlushesOf(log, sender) == FlushOps(sender, marks)
    ensures DistinctIds(marks)
  {
    FreshIsLocal(log, sender);
    hide Ledger.FlushesOf;
    var ops := FlushOps(sender, marks);
    forall i, j | 0 <= i < j < |marks|
      ensures marks[i].0 != marks[j].0
    {
      assert ops[i].id != ops[j].id;
    }
  }

  /** What the reader of a run's stream enters. */
  lemma {:induction false} ReaderEnters(
    cfg: SenderConfig, link: Link, wakes: seq<Wake>, segments: seq<Bytes>, valid: Bytes -> bool, session: Session)
    requires InvalidBound(cfg) == 0 && Clean(cfg, wakes, valid) && Finds(session.inspect, cfg, wakes)
    requires Flatten(segments) == Run(cfg, link, Start(), wakes).0.wire
    requires Run(cfg, link, Start(), wakes).1 != Ended(WriteFailed)
    ensures session.Ops(Readable(Feed([], segments, LIMIT, valid).delivered, session.inspect), 0) ==
            Entered(session, Run(cfg, link, Start(), wakes).0.flushed, 0)
  {
    var none := Account(0, [], 0, NO_MESSAGES);
    FlushedAreReceived(cfg, link, wakes, segments, valid, session, none);
    hide Run, Feed, Readable, Session.Ops, Entered, Clean, Finds, AllReadable;
    var ops := session.Ops(Readable(Feed([], segments, LIMIT, valid).delivered, session.inspect), 0);
    assert [] + ops == ops;
    var flushed := Run(cfg, link, Start(), wakes).0.flushed;
    assert [] + Entered(session, flushed, 0) == Entered(session, flushed, 0);
  }

  /**
   From the send loop's first wake-up to the verdict.  In any log, among whatever else any task did: if the
   sender's flushes are those of its run and the receiver's receipts those of a session that read the run's
   stream, then the assertion between them passes exactly when something was flushed and each receipt was in time.
   */
  lemma {:induction false} RunPassesRouting(
    cfg: SenderConfig, link: Link, wakes: seq<Wake>, segments: seq<Bytes>, valid: Bytes -> bool, session: Session,
    log: seq<Ledger.Op>, a: Ledger.RoutingAssertion)
    requires InvalidBound(cfg) == 0 && Clean(cfg, wakes, valid) && Finds(session.inspect, cfg, wakes)
    requires Flatten(segments) == Run(cfg, link, Start(), wakes).0.wire
    requires Run(cfg, link, Start(), wakes).1 != Ended(WriteFailed)
    requires session.Alone() && Ledger.FreshIds(log)
    requires Ledger.FlushesOf(log, cfg.participant) ==
      FlushOps(cfg.participant, Run(cfg, link, Start(), wakes).0.flushed)
    requires Ledger.ReceiptsOf(log, session.receiver) ==
      Ledger.ReceiptsOf(session.Ops(Readable(Feed([], segments, LIMIT, valid).delivered, session.inspect), 0),
                        session.receiver)
    requires a.sender == cfg.participant && a.receivers == [session.receiver] && a.forbiddenReceivers == []
    ensures var flushed := Run(cfg, link, Start(), wakes).0.flushed;
      Ledger.AllPassed(Ledger.EvaluateRouting(Ledger.Replay(log), [a])) <==>
      flushed != [] && forall i :: 0 <= i < |flushed| ==> session.clock(i) <= flushed[i].1 + Ledger.Timeout(a)
  {
    hide Run, Feed, Session.Ops, Readable, Clean, Finds, Entered, FlushOps, ReceiptsFor, Session.Alone;
    hide Ledger.FlushesOf, Ledger.ReceiptsOf, Ledger.Replay, Ledger.Expected, Ledger.FreshIds;
    ReaderEnters(cfg, link, wakes, segments, valid, session);
    var flushed := Run(cfg, link, Start(), wakes).0.flushed;
    OwnReceipts(session, flushed, 0);
    FreshMarks(log, cfg.participant, flushed);
    ExchangePasses(log, cfg.participant, flushed, session, flushed, a);
    OneResult(Ledger.Replay(log), a, session.receiver);
    HeardAllInTime(session, flushed, Ledger.Timeout(a));
  }

  lemma OneResult(l: Ledger.Ledger, a: Ledger.RoutingAssertion, receiver: Bytes)
    requires a.receivers == [receiver] && a.forbiddenReceivers == []
    ensures Ledger.AllPassed(Ledger.EvaluateRouting(l, [a])) <==> Ledger.Expected(l, a, receiver).passed
  {
    hide Ledger.Expected;
    assert [a][1..] == [];
    assert Ledger.EvaluateRouting(l, [a]) == [Ledger.Expected(l, a, receiver)];
  }

  lemma HeardAllInTime(session: Session, marks: seq<Correlation>, timeout: nat)
    requires DistinctIds(marks)
    ensures (forall m :: m in marks ==> HeardInTime(session, marks, m, timeout)) <==>
            forall i :: 0 <= i < |marks| ==> session.clock(i) <= marks[i].1 + timeout
  {
    HeardInPlace(session, marks, marks, seq(|marks|, i => i), timeout);
  }

  /** The `i`-th mark was heard in the place `at[i]`. */
  ghost predicate HeardAt(heard: seq<Correlation>, marks: seq<Correlation>, at: seq<nat>) {
    |at| == |marks| && forall i :: 0 <= i < |at| ==> at[i] < |heard| && heard[at[i]].0 == marks[i].0
  }

  lemma HeardInPlace(session: Session, heard: seq<Correlation>, marks: seq<Correlation>, at: seq<nat>, timeout: nat)
    requires DistinctIds(heard) && HeardAt(heard, marks, at)
    ensures (forall m :: m in marks ==> HeardInTime(session, heard, m, timeout)) <==>
            forall i :: 0 <= i < |marks| ==> session.clock(at[i]) <= marks[i].1 + timeout
  {
    forall i | 0 <= i < |marks|
      ensures HeardInTime(session, heard, marks[i], timeout) <==> session.clock(at[i]) <= marks[i].1 + timeout
    {
      assert forall j :: 0 <= j < |heard| && heard[j].0 == marks[i].0 ==> j == at[i];
    }
  }

  // ---- through a relay ----

  /** A stream of documents, whoever sent them: each within the limit, with an id that the receiver finds. */
  ghost predicate Stream(events: seq<Event>, session: Session, valid: Bytes -> bool) {
    && Documents(events, valid)
    && (forall e :: e in events ==> Fits(e))
    && AllLabelled(events, session.inspect)
    && DistinctIds(Marks(events))
  }

  /** What the receiver of a stream enters, however it is cut. */
  lemma {:induction false} StreamEnters(events: seq<Event>, segments: seq<Bytes>, session: Session, valid: Bytes -> bool)
    requires Stream(events, session, valid) && Flatten(segments) == XmlOf(events)
    ensures session.Ops(Readable(Feed([], segments, LIMIT, valid).delivered, session.inspect), 0) ==
            Entered(session, Marks(events), 0)
  {
    hide Feed, Documents, Fits, AllLabelled, Decoder.Decode, Entered, Marks, Xmls, Session.Ops;
    DocumentsDecode(events, valid);
    NothingStops(LIMIT, valid);
    FeedIsDecode([], segments, LIMIT, valid);
    assert [] + XmlOf(events) == XmlOf(events);
    LabelledAreReadable(events, session.inspect);
    EventsEnterMarks(session, events, 0);
  }

  /** The sender's flushes in the log are those of its connections, and the receiver's receipts those of the stream. */
  ghost predicate LogShows(log: seq<Ledger.Op>, cfg: SenderConfig, conns: seq<Connection>, segments: seq<Bytes>,
                           session: Session, valid: Bytes -> bool) {
    && session.Alone() && Ledger.FreshIds(log)
    && Ledger.FlushesOf(log, cfg.participant) == FlushOps(cfg.participant, Totals.Flushed(cfg, conns))
    && Ledger.ReceiptsOf(log, session.receiver) ==
       Ledger.ReceiptsOf(session.Ops(Readable(Feed([], segments, LIMIT, valid).delivered, session.inspect), 0),
                         session.receiver)
  }

  /**
   A server in between that forwards whole documents of any number of senders, in any order, and may lose some: the
   assertion passes exactly when each id that the sender flushed, on any of its connections, is in the stream and
   was received in time.
   */
  lemma {:induction false} RelayPassesExactly(
    cfg: SenderConfig, conns: seq<Connection>, stream: seq<Event>, segments: seq<Bytes>, valid: Bytes -> bool,
    session: Session, log: seq<Ledger.Op>, a: Ledger.RoutingAssertion)
    requires Stream(stream, session, valid) && Flatten(segments) == XmlOf(stream)
    requires LogShows(log, cfg, conns, segments, session, valid)
    requires a.sender == cfg.participant && a.receivers == [session.receiver] && a.forbiddenReceivers == []
    ensures var flushed := Totals.Flushed(cfg, conns);
      Ledger.AllPassed(Ledger.EvaluateRouting(Ledger.Replay(log), [a])) <==>
      flushed != [] && forall m :: m in flushed ==> HeardInTime(session, Marks(stream), m, Ledger.Timeout(a))
  {
    hide Feed, Session.Ops, Readable, Entered, FlushOps, ReceiptsFor, Session.Alone, Totals.Flushed, HeardInTime;
    hide Ledger.FlushesOf, Ledger.ReceiptsOf, Ledger.Replay, Ledger.Expected, Ledger.FreshIds, Documents, AllLabelled, Fits;
    StreamEnters(stream, segments, session, valid);
    OwnReceipts(session, Marks(stream), 0);
    ExchangePasses(log, cfg.participant, Totals.Flushed(cfg, conns), session, Marks(stream), a);
    OneResult(Ledger.Replay(log), a, session.receiver);
  }

  /** If nothing was lost, and the `i`-th id flushed is in the place `at[i]`, then exactly when each was in time there. */
  lemma {:induction false} RelayPassesRouting(
    cfg: SenderConfig, conns: seq<Connection>, stream: seq<Event>, at: seq<nat>, segments: seq<Bytes>,
    valid: Bytes -> bool, session: Session, log: seq<Ledger.Op>, a: Ledger.RoutingAssertion)
    requires Stream(stream, session, valid) && Flatten(segments) == XmlOf(stream)
    requires LogShows(log, cfg, conns, segments, session, valid)
    requires HeardAt(Marks(stream), Totals.Flushed(cfg, conns), at)
    requires a.sender == cfg.participant && a.receivers == [session.receiver] && a.forbiddenReceivers == []
    ensures var flushed := Totals.Flushed(cfg, conns);
      Ledger.AllPassed(Ledger.EvaluateRouting(Ledger.Replay(log), [a])) <==>
      flushed != [] && forall i :: 0 <= i < |flushed| ==> session.clock(at[i]) <= flushed[i].1 + Ledger.Timeout(a)
  {
    hide LogShows, Totals.Flushed, HeardInTime, HeardAt, Documents, AllLabelled, Fits, Marks;
    hide Ledger.AllPassed, Ledger.EvaluateRouting, Ledger.Replay;
    RelayPassesExactly(cfg, conns, stream, segments, valid, session, log, a);
    HeardInPlace(session, Marks(stream), Totals.Flushed(cfg, conns), at, Ledger.Timeout(a));
  }
}
