/**
 The receiving side (src/scenarios.rs:599-634): every read is pushed through the decoder, every event
 is counted, and every correlated event is entered in the shared ledger, between what others count and enter.
 */
module ReadLoop {
  import opened Wrappers
  import opened Marker
  import opened Decoder
  import opened Segmentation
  import opened Metrics
  import opened SharedLedger
  import Ledger

  /** What `inspect_event` makes of an event: it fails, or finds a correlation id or none. */
  type Inspect = Bytes -> Result<Option<Bytes>, ()>

  /** The events before the first that cannot be inspected. */
  function Readable(events: seq<Bytes>, inspect: Inspect): seq<Bytes> {
    if events == [] || inspect(events[0]).Err? then []
    else [events[0]] + Readable(events[1..], inspect)
  }

  /**
   A receiver, what it finds in events, when it enters the `n`-th of the session, and what other tasks do to
   the shared objects before that.
   */
  datatype Session = Session(receiver: Bytes, inspect: Inspect, clock: nat -> nat, others: nat -> Meanwhile)
  {
    /** No other task receives in this participant's name. */
    ghost predicate Alone() {
      forall n: nat :: Ledger.ReceiptsOf(others(n).ops, receiver) == []
    }

    function Own(raw: Bytes, n: nat): seq<Ledger.Op> {
      match inspect(raw)
      case Ok(Some(id)) => [Ledger.Received(receiver, id, clock(n))]
      case _ => []
    }

    /** What is entered up to and with events, the first of them the `n`-th of the session. */
    function Ops(events: seq<Bytes>, n: nat): seq<Ledger.Op> {
      if events == [] then [] else others(n).ops + Own(events[0], n) + Ops(events[1..], n + 1)
    }

    /** What the others count meanwhile. */
    function Counts(events: seq<Bytes>, n: nat): MessageCounters {
      if events == [] then NO_MESSAGES else others(n).counts.Plus(Counts(events[1..], n + 1))
    }
  }

  /**
   What a session has counted: events; the log of the ledger; its duplicates beyond those that the log shows of
   this receiver, which earlier sessions have counted; and what other tasks have counted.
   */
  datatype Account = Account(received: int, log: seq<Ledger.Op>, earlier: int, foreign: MessageCounters)

  ghost function AccountOf(metrics: MessageMetrics, ledger: CorrelationLedger, receiver: Bytes): Account
    reads metrics, ledger
  {
    var own := metrics.Own();
    Account(own.received, ledger.log, own.duplicates - OwnDuplicates(ledger.log, receiver), metrics.foreign)
  }

  ghost function OwnTimeouts(metrics: MessageMetrics): int
    reads metrics
  {
    metrics.Own().timeouts
  }

  /** The account once `todo` is counted too. */
  ghost function Closing(session: Session, now: Account, todo: seq<Bytes>, n: nat): Account {
    Account(now.received + |todo|, now.log + session.Ops(todo, n), now.earlier, now.foreign.Plus(session.Counts(todo, n)))
  }

  function After(session: Session, now: Account, raw: Bytes, n: nat): Account {
    if session.inspect(raw).Err? then now
    else
      Account(now.received + 1, now.log + (session.others(n).ops + session.Own(raw, n)), now.earlier,
              now.foreign.Plus(session.others(n).counts))
  }

  /** One inspected event. */
  method Receive(metrics: MessageMetrics, ledger: CorrelationLedger, session: Session, raw: Bytes, n: nat)
    returns (ok: bool)
    requires ledger.Valid() && session.Alone()
    modifies metrics, ledger
    ensures ledger.Valid()
    ensures ok <==> session.inspect(raw).Ok?
    ensures OwnTimeouts(metrics) == old(OwnTimeouts(metrics))
    ensures AccountOf(metrics, ledger, session.receiver) ==
            After(session, old(AccountOf(metrics, ledger, session.receiver)), raw, n)
  {
    hide OwnDuplicates, Ledger.Replay, Ledger.ReceiptsOf, CorrelationLedger.Valid;
    var found := session.inspect(raw);
    if found.Err? {
      return false;
    }
    OthersDuplicateNothing(ledger.log, session.others(n).ops, session.receiver);
    ledger.Interleave(session.others(n).ops);
    metrics.Meanwhile(session.others(n).counts);
    metrics.received := metrics.received + 1;
    if found.value.Some? {
      var id := found.value.value;
      OneMoreReceipt(ledger.log, session.receiver, id, session.clock(n));
      var duplicate := ledger.RecordReceipt(session.receiver, id, session.clock(n));
      if duplicate {
        metrics.duplicates := metrics.duplicates + 1;
      }
    }
    return true;
  }

  /** The account that the events from the `i`-th on, and `rest`, will close. */
  ghost function Pending(session: Session, now: Account, events: seq<Bytes>, i: nat, rest: seq<Bytes>, n: nat): Account
    requires i <= |events|
  {
    Closing(session, now, Readable(events[i..] + rest, session.inspect), n + i)
  }

  lemma PendingStep(session: Session, now: Account, events: seq<Bytes>, i: nat, rest: seq<Bytes>, n: nat)
    requires i < |events|
    ensures Pending(session, now, events, i, rest, n) ==
            if session.inspect(events[i]).Err? then now
            else Pending(session, After(session, now, events[i], n + i), events, i + 1, rest, n)
  {
    hide Session.Own;
    var raw, todo := events[i], Readable(events[i + 1..] + rest, session.inspect);
    assert (events[i..] + rest)[1..] == events[i + 1..] + rest;
    assert now.log + [] == now.log;
    if session.inspect(raw).Ok? {
      var first, later := session.others(n + i).ops + session.Own(raw, n + i), session.Ops(todo, n + i + 1);
      assert ([raw] + todo)[1..] == todo;
      assert now.log + (first + later) == now.log + first + later;
    }
  }

  ghost predicate AllReadable(events: seq<Bytes>, inspect: Inspect) {
    forall i :: 0 <= i < |events| ==> inspect(events[i]).Ok?
  }

  lemma AllReadableConcat(a: seq<Bytes>, b: seq<Bytes>, inspect: Inspect)
    ensures AllReadable(a + b, inspect) <==> AllReadable(a, inspect) && AllReadable(b, inspect)
  {
    forall i | 0 <= i < |b|
      ensures (a + b)[|a| + i] == b[i]
    {
    }
    forall i | 0 <= i < |a|
      ensures (a + b)[i] == a[i]
    {
    }
    if AllReadable(a + b, inspect) {
      forall i | 0 <= i < |b|
        ensures inspect(b[i]).Ok?
      {
        assert inspect((a + b)[|a| + i]).Ok?;
      }
    }
  }

  /** The events of one push, until one cannot be inspected; `rest` are those of later pushes. */
  method ReceiveAll(metrics: MessageMetrics, ledger: CorrelationLedger, session: Session, events: seq<Bytes>,
                    n: nat, ghost rest: seq<Bytes>)
    returns (ok: bool)
    requires ledger.Valid() && session.Alone()
    modifies metrics, ledger
    ensures ledger.Valid()
    ensures Pending(session, old(AccountOf(metrics, ledger, session.receiver)), events, 0, rest, n) ==
            if ok then Pending(session, AccountOf(metrics, ledger, session.receiver), events, |events|, rest, n)
            else AccountOf(metrics, ledger, session.receiver)
    ensures ok <==> AllReadable(events, session.inspect)
    ensures OwnTimeouts(metrics) == old(OwnTimeouts(metrics))
  {
    var i := 0;
    hide Pending, AccountOf, OwnTimeouts, Session.Own, Session.Alone, CorrelationLedger.Valid;
    while i < |events|
      invariant 0 <= i <= |events| && ledger.Valid() && OwnTimeouts(metrics) == old(OwnTimeouts(metrics))
      invariant forall j :: 0 <= j < i ==> session.inspect(events[j]).Ok?
      invariant Pending(session, old(AccountOf(metrics, ledger, session.receiver)), events, 0, rest, n) ==
                Pending(session, AccountOf(metrics, ledger, session.receiver), events, i, rest, n)
    {
      PendingStep(session, AccountOf(metrics, ledger, session.receiver), events, i, rest, n);
      ok := Receive(metrics, ledger, session, events[i], n + i);
      if !ok {
        return;
      }
      i := i + 1;
    }
    return true;
  }

  /** What the reads still to come will bring the account to, and whether the session ends well. */
  ghost function Outlook(session: Session, now: Account, fed: Fed, n: nat): (Account, bool) {
    (Closing(session, now, Readable(fed.delivered, session.inspect), n),
     fed.verdict.More? && AllReadable(fed.delivered, session.inspect))
  }

  lemma OutlookOfPush(session: Session, now: Account, events: seq<Bytes>, later: Fed, n: nat)
    ensures var o := Outlook(session, now, Fed(events + later.delivered, later.verdict), n);
      && o.0 == Pending(session, now, events, 0, later.delivered, n)
      && (o.1 ==> AllReadable(events, session.inspect))
      && (AllReadable(events, session.inspect) ==> o.1 == Outlook(session, now, later, n).1)
  {
    hide Readable, AllReadable, Closing;
    AllReadableConcat(events, later.delivered, session.inspect);
    assert events[0..] == events;
  }

  lemma OutlookAfterPush(session: Session, before: Account, now: Account, events: seq<Bytes>, later: Fed, n: nat)
    ensures Pending(session, now, events, |events|, later.delivered, n) == Outlook(session, now, later, n + |events|).0
    ensures Outlook(session, before, later, n).1 == Outlook(session, now, later, n + |events|).1
  {
    hide Readable, AllReadable, Closing;
    assert events[|events|..] + later.delivered == later.delivered;
  }

  lemma OutlookAtEnd(session: Session, now: Account, verdict: Verdict, n: nat)
    ensures Outlook(session, now, Fed([], verdict), n) == (now, verdict.More?)
  {
    assert now.log + [] == now.log;
  }

  ghost function FeedRest(decoder: CotStreamDecoder, segments: seq<Bytes>): Fed
    reads decoder
  {
    Feed(decoder.buffer, segments, decoder.maxEventBytes, decoder.validXml)
  }

  /** One read of a session; `rest` are the reads still to come. */
  method Read(decoder: CotStreamDecoder, metrics: MessageMetrics, ledger: CorrelationLedger, session: Session,
              segment: Bytes, n: nat, ghost rest: seq<Bytes>)
    returns (ok: bool, count: nat)
    requires ledger.Valid() && session.Alone()
    modifies decoder, metrics, ledger
    ensures ledger.Valid()
    ensures Outlook(session, old(AccountOf(metrics, ledger, session.receiver)), old(FeedRest(decoder, [segment] + rest)), n) ==
            if ok then Outlook(session, AccountOf(metrics, ledger, session.receiver), FeedRest(decoder, rest), n + count)
            else (AccountOf(metrics, ledger, session.receiver), false)
    ensures OwnTimeouts(metrics) == old(OwnTimeouts(metrics))
  {
    hide Decode, Outlook, Pending;
    ghost var before, fed := AccountOf(metrics, ledger, session.receiver), FeedRest(decoder, [segment] + rest);
    assert ([segment] + rest)[1..] == rest;
    var pushed := decoder.Push(segment);
    if pushed.Err? {
      OutlookAtEnd(session, before, fed.verdict, n);
      return false, 0;
    }
    ghost var later := FeedRest(decoder, rest);
    OutlookOfPush(session, before, pushed.value, later, n);
    ok := ReceiveAll(metrics, ledger, session, pushed.value, n, later.delivered);
    OutlookAfterPush(session, before, AccountOf(metrics, ledger, session.receiver), pushed.value, later, n);
    count := |pushed.value|;
  }

  /**
   What the loop's `select!` wakes up to: a read that brings bytes, none in time, or ends; or the run's end.
   That may also come in the pause before the first read, or in the delay behind a read, whose bytes are then lost.
   */
  datatype Arrival = Segment(bytes: Bytes) | Silence | EndOfStream | ReadFailure | Halted

  datatype ReadEnd = StillReading | Over | TimedOut | PeerClosed | ReadFailed | ParseFailed

  /** How an arrival ends the session, if it does. */
  function Ends(arrival: Arrival, tolerateSilence: bool): ReadEnd {
    match arrival
    case Segment(_) => StillReading
    case Silence => if tolerateSilence then StillReading else TimedOut
    case EndOfStream => PeerClosed
    case ReadFailure => ReadFailed
    case Halted => Over
  }

  /** What a session hears before it ends, were every event readable. */
  datatype Hearing = Hearing(segments: seq<Bytes>, silences: nat, end: ReadEnd)

  function Hear(arrivals: seq<Arrival>, tolerateSilence: bool): Hearing {
    if arrivals == [] then Hearing([], 0, StillReading)
    else
      var later := if Ends(arrivals[0], tolerateSilence) == StillReading then Hear(arrivals[1..], tolerateSilence)
                   else Hearing([], 0, Ends(arrivals[0], tolerateSilence));
      match arrivals[0]
      case Segment(bytes) => later.(segments := [bytes] + later.segments)
      case Silence => later.(silences := later.silences + 1)
      case _ => later
  }

  /** The bytes of the reads among arrivals, in order. */
  function Reads(arrivals: seq<Arrival>): seq<Bytes> {
    if arrivals == [] then []
    else (if arrivals[0].Segment? then [arrivals[0].bytes] else []) + Reads(arrivals[1..])
  }

  /** How many reads among them timed out. */
  function Silences(arrivals: seq<Arrival>): nat {
    if arrivals == [] then 0 else (if arrivals[0] == Silence then 1 else 0) + Silences(arrivals[1..])
  }

  /** The session goes on for the first `n` arrivals, and no longer. */
  ghost predicate GoesOnFor(arrivals: seq<Arrival>, tolerateSilence: bool, n: nat) {
    && n <= |arrivals|
    && (forall i :: 0 <= i < n ==> arrivals[i].Segment? || (tolerateSilence && arrivals[i] == Silence))
    && (n < |arrivals| ==> !arrivals[n].Segment? && !(tolerateSilence && arrivals[n] == Silence))
  }

  /**
   What a session hears, arrival by arrival: it goes on through reads, and through silences if it may; the first
   other arrival ends it, as it says, and a silence that ends it is counted too.
   */
  lemma {:induction false} HearsExactly(arrivals: seq<Arrival>, tolerateSilence: bool, n: nat)
    requires GoesOnFor(arrivals, tolerateSilence, n)
    ensures var h := Hear(arrivals, tolerateSilence);
      && h.segments == Reads(arrivals[..n])
      && h.silences == Silences(arrivals[..n]) + (if n < |arrivals| && arrivals[n] == Silence then 1 else 0)
      && (n == |arrivals| ==> h.end == StillReading)
      && (n < |arrivals| ==>
            && (arrivals[n] == Silence ==> h.end == TimedOut)
            && (arrivals[n] == EndOfStream ==> h.end == PeerClosed)
            && (arrivals[n] == ReadFailure ==> h.end == ReadFailed)
            && (arrivals[n] == Halted ==> h.end == Over))
    decreases |arrivals|
  {
    if n > 0 {
      HearsExactly(arrivals[1..], tolerateSilence, n - 1);
      assert arrivals[..n][1..] == arrivals[1..][..n - 1];
    }
  }

  lemma {:induction false} SomewhereItEnds(arrivals: seq<Arrival>, tolerateSilence: bool) returns (n: nat)
    ensures GoesOnFor(arrivals, tolerateSilence, n)
    decreases |arrivals|
  {
    n := 0;
    if arrivals != [] && (arrivals[0].Segment? || (tolerateSilence && arrivals[0] == Silence)) {
      n := SomewhereItEnds(arrivals[1..], tolerateSilence);
      assert forall i :: 0 < i < n + 1 ==> arrivals[i] == arrivals[1..][i - 1];
      n := n + 1;
    }
  }

  /** What is still to be fed to the decoder once `arrival` is here. */
  function ToFeed(arrival: Arrival, tolerateSilence: bool, rest: seq<Bytes>): seq<Bytes> {
    (if arrival.Segment? then [arrival.bytes] else [])
    + (if Ends(arrival, tolerateSilence) == StillReading then rest else [])
  }

  /** One turn of the loop; `rest` are the reads still to come. */
  method Attend(decoder: CotStreamDecoder, metrics: MessageMetrics, ledger: CorrelationLedger, session: Session,
                arrival: Arrival, tolerateSilence: bool, n: nat, ghost rest: seq<Bytes>)
    returns (end: ReadEnd, count: nat)
    requires ledger.Valid() && session.Alone()
    modifies decoder, metrics, ledger
    ensures ledger.Valid()
    ensures end == ParseFailed || end == Ends(arrival, tolerateSilence)
    ensures Outlook(session, old(AccountOf(metrics, ledger, session.receiver)),
                    old(FeedRest(decoder, ToFeed(arrival, tolerateSilence, rest))), n) ==
            if end == ParseFailed then (AccountOf(metrics, ledger, session.receiver), false)
            else if end == StillReading then Outlook(session, AccountOf(metrics, ledger, session.receiver), FeedRest(decoder, rest), n + count)
            else (AccountOf(metrics, ledger, session.receiver), true)
    ensures OwnTimeouts(metrics) == old(OwnTimeouts(metrics)) + if arrival.Silence? then 1 else 0
  {
    hide Outlook, Feed;
    end, count := Ends(arrival, tolerateSilence), 0;
    if arrival.Segment? {
      assert ToFeed(arrival, tolerateSilence, rest) == [arrival.bytes] + rest;
      var ok;
      ok, count := Read(decoder, metrics, ledger, session, arrival.bytes, n, rest);
      if !ok {
        end := ParseFailed;
      }
    } else {
      assert ToFeed(arrival, tolerateSilence, rest) == if end == StillReading then rest else [];
      FeedNothing(decoder);
      OutlookAtEnd(session, AccountOf(metrics, ledger, session.receiver), More(decoder.buffer), n);
      if arrival.Silence? {
        metrics.timeouts := metrics.timeouts + 1;
      }
    }
  }

  lemma FeedNothing(decoder: CotStreamDecoder)
    ensures FeedRest(decoder, []) == Fed([], More(decoder.buffer))
  {
  }

  /** All that a session has to show. */
  datatype View = View(account: Account, timeouts: int, buffer: Bytes, limit: nat, valid: Bytes -> bool)
  {
    ghost function Feeding(segments: seq<Bytes>): Fed { Feed(buffer, segments, limit, valid) }
  }

  ghost function ViewOf(decoder: CotStreamDecoder, metrics: MessageMetrics, ledger: CorrelationLedger, receiver: Bytes): View
    reads decoder, metrics, ledger
  {
    View(AccountOf(metrics, ledger, receiver), OwnTimeouts(metrics), decoder.buffer, decoder.maxEventBytes, decoder.validXml)
  }

  /** What a session is to report: its account, whether all of it could be read, and the silences if so. */
  datatype Goal = Goal(account: Account, wellRead: bool, timeouts: int)

  /** The goal that a view and what is left to hear add up to. */
  ghost function GoalOf(session: Session, now: View, left: Hearing, n: nat): Goal {
    var (account, wellRead) := Outlook(session, now.account, now.Feeding(left.segments), n);
    Goal(account, wellRead, now.timeouts + left.silences)
  }

  ghost predicate Meets(goal: Goal, end: ReadEnd, now: View) {
    && now.account == goal.account && (end != ParseFailed <==> goal.wellRead)
    && (if end == ParseFailed then now.timeouts <= goal.timeouts else now.timeouts == goal.timeouts)
  }

  /** `left` is what there is to hear when `arrival` is here and `later` is still to come. */
  ghost predicate Follows(left: Hearing, arrival: Arrival, tolerateSilence: bool, later: Hearing) {
    var end := Ends(arrival, tolerateSilence);
    && left.end == (if end == StillReading then later.end else end)
    && left.segments == ToFeed(arrival, tolerateSilence, later.segments)
    && left.silences == (if arrival.Silence? then 1 else 0) + (if end == StillReading then later.silences else 0)
  }

  /** The same turn, as a step towards the session's goal. */
  method Advance(decoder: CotStreamDecoder, metrics: MessageMetrics, ledger: CorrelationLedger, session: Session,
                 arrival: Arrival, tolerateSilence: bool, n: nat, ghost left: Hearing, ghost later: Hearing)
    returns (end: ReadEnd, count: nat)
    requires ledger.Valid() && session.Alone()
    requires Follows(left, arrival, tolerateSilence, later)
    modifies decoder, metrics, ledger
    ensures ledger.Valid()
    ensures var goal := GoalOf(session, old(ViewOf(decoder, metrics, ledger, session.receiver)), left, n);
      var now := ViewOf(decoder, metrics, ledger, session.receiver);
      if end == StillReading then left.end == later.end && GoalOf(session, now, later, n + count) == goal
      else Meets(goal, end, now) && (end != ParseFailed ==> end == left.end)
  {
    hide Outlook, AccountOf, OwnTimeouts, ToFeed, Feed;
    end, count := Attend(decoder, metrics, ledger, session, arrival, tolerateSilence, n, later.segments);
  }

  /** What a session will report that stands before the `i`-th arrival, and how it will end. */
  ghost function Plan(session: Session, now: View, arrivals: seq<Arrival>, i: nat, tolerateSilence: bool, n: nat):
    (Goal, ReadEnd)
    requires i <= |arrivals|
  {
    var left := Hear(arrivals[i..], tolerateSilence);
    (GoalOf(session, now, left, n), left.end)
  }

  /** What it does report. */
  ghost predicate Keeps(plan: (Goal, ReadEnd), end: ReadEnd, now: View) {
    Meets(plan.0, end, now) && (end != ParseFailed ==> end == plan.1)
  }

  /** The turn for the `i`-th arrival. */
  method HandleArrival(decoder: CotStreamDecoder, metrics: MessageMetrics, ledger: CorrelationLedger, session: Session,
                       arrivals: seq<Arrival>, i: nat, tolerateSilence: bool, n: nat)
    returns (end: ReadEnd, count: nat)
    requires ledger.Valid() && session.Alone() && i < |arrivals|
    modifies decoder, metrics, ledger
    ensures ledger.Valid()
    ensures var plan := Plan(session, old(ViewOf(decoder, metrics, ledger, session.receiver)), arrivals, i,
                             tolerateSilence, n);
      var now := ViewOf(decoder, metrics, ledger, session.receiver);
      if end == StillReading then Plan(session, now, arrivals, i + 1, tolerateSilence, n + count) == plan
      else Keeps(plan, end, now)
  {
    hide ViewOf, GoalOf, Meets, Hear, Follows, Session.Alone, CorrelationLedger.Valid;
    HearNext(arrivals, i, tolerateSilence);
    end, count := Advance(decoder, metrics, ledger, session, arrivals[i], tolerateSilence, n,
                          Hear(arrivals[i..], tolerateSilence), Hear(arrivals[i + 1..], tolerateSilence));
  }

  /**
   A whole session: its reads, the decoder that is handed on from read to read, and the events.  What it
   counts is settled by the stream alone: the readable events among those the decoder delivers.
   */
  method ReadEvents(decoder: CotStreamDecoder, metrics: MessageMetrics, ledger: CorrelationLedger,
                    session: Session, arrivals: seq<Arrival>, tolerateSilence: bool)
    returns (end: ReadEnd)
    requires ledger.Valid() && session.Alone()
    modifies decoder, metrics, ledger
    ensures ledger.Valid()
    ensures Keeps(Plan(session, old(ViewOf(decoder, metrics, ledger, session.receiver)), arrivals, 0, tolerateSilence, 0),
                  end, ViewOf(decoder, metrics, ledger, session.receiver))
  {
    hide Plan, Keeps, ViewOf, Session.Alone, CorrelationLedger.Valid;
    end := KeepReading(
      decoder, metrics, ledger, session, arrivals, tolerateSilence,
      Plan(session, ViewOf(decoder, metrics, ledger, session.receiver), arrivals, 0, tolerateSilence, 0));
  }

  /** The loop; `plan` is where it is to end. */
  method KeepReading(decoder: CotStreamDecoder, metrics: MessageMetrics, ledger: CorrelationLedger,
                     session: Session, arrivals: seq<Arrival>, tolerateSilence: bool, ghost plan: (Goal, ReadEnd))
    returns (end: ReadEnd)
    requires ledger.Valid() && session.Alone()
    requires Plan(session, ViewOf(decoder, metrics, ledger, session.receiver), arrivals, 0, tolerateSilence, 0) == plan
    modifies decoder, metrics, ledger
    ensures ledger.Valid() && Keeps(plan, end, ViewOf(decoder, metrics, ledger, session.receiver))
  {
    var i, n: nat := 0, 0;
    hide Plan, Keeps, ViewOf, Session.Alone, CorrelationLedger.Valid;
    while i < |arrivals|
      invariant 0 <= i <= |arrivals| && ledger.Valid()
      invariant Plan(session, ViewOf(decoder, metrics, ledger, session.receiver), arrivals, i, tolerateSilence, n) == plan
    {
      var count;
      end, count := HandleArrival(decoder, metrics, ledger, session, arrivals, i, tolerateSilence, n);
      if end != StillReading {
        return;
      }
      i, n := i + 1, n + count;
    }
    PlanAtEnd(session, ViewOf(decoder, metrics, ledger, session.receiver), arrivals, tolerateSilence, n);
    return StillReading;
  }

  lemma PlanAtEnd(session: Session, now: View, arrivals: seq<Arrival>, tolerateSilence: bool, n: nat)
    ensures Keeps(Plan(session, now, arrivals, |arrivals|, tolerateSilence, n), StillReading, now)
  {
    assert arrivals[|arrivals|..] == [];
    NothingLeft(session, now, n);
    hide GoalOf, Meets;
  }

  lemma NothingLeft(session: Session, now: View, n: nat)
    ensures Meets(GoalOf(session, now, Hearing([], 0, StillReading), n), StillReading, now)
  {
    OutlookAtEnd(session, now.account, More(now.buffer), n);
    hide Outlook;
  }

  lemma HearNext(arrivals: seq<Arrival>, i: nat, tolerateSilence: bool)
    requires i < |arrivals|
    ensures Follows(Hear(arrivals[i..], tolerateSilence), arrivals[i], tolerateSilence, Hear(arrivals[i + 1..], tolerateSilence))
  {
    assert arrivals[i..][1..] == arrivals[i + 1..];
  }
}
