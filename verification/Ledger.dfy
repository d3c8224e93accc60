/**
 The correlation ledger that every sender and receiver task shares, and the routing verdict read from
 it (src/scenarios.rs:51-55, 626-632, 767-772, 854-909).  A log is the order in which the tasks took the lock.
 */
module Ledger {
  import opened Wrappers
  import opened Marker

  datatype Op =
    | Flushed(sender: Bytes, id: Bytes, at: nat)
    | Received(receiver: Bytes, id: Bytes, at: nat)

  datatype Ledger = Ledger(sent: map<Bytes, (Bytes, nat)>, seen: map<(Bytes, Bytes), nat>)

  function Apply(l: Ledger, op: Op): Ledger {
    match op
    case Flushed(sender, id, at) => l.(sent := l.sent[id := (sender, at)])
    case Received(receiver, id, at) => l.(seen := l.seen[(receiver, id) := at])
  }

  const EMPTY_LEDGER := Ledger(map[], map[])

  function Last<T>(s: seq<T>): T
    requires s != []
  {
    s[|s| - 1]
  }

  function Front<T>(s: seq<T>): seq<T>
    requires s != []
  {
    s[..|s| - 1]
  }

  function Replay(log: seq<Op>): Ledger {
    if log == [] then EMPTY_LEDGER else Apply(Replay(Front(log)), Last(log))
  }

  datatype RoutingAssertion = RoutingAssertion(
    sender: Bytes, receivers: seq<Bytes>, forbiddenReceivers: seq<Bytes>, timeout: Option<nat>)

  datatype Expectation = MustReceive | MustNotReceive

  datatype AssertionResult = AssertionResult(
    sender: Bytes, receiver: Bytes, expectation: Expectation, passed: bool, receivedCount: nat)

  /** Thirty seconds, in nanoseconds, unless the assertion says otherwise. */
  function Timeout(a: RoutingAssertion): nat {
    match a.timeout case Some(t) => t case None => 30_000_000_000
  }

  /** `Instant::duration_since`, which is zero for an earlier instant. */
  function Elapsed(since: nat, now: nat): nat {
    if now >= since then now - since else 0
  }

  function Correlations(l: Ledger, sender: Bytes): set<Bytes> {
    set id | id in l.sent && l.sent[id].0 == sender
  }

  predicate InTime(l: Ledger, receiver: Bytes, id: Bytes, timeout: nat) {
    (receiver, id) in l.seen && id in l.sent && Elapsed(l.sent[id].1, l.seen[(receiver, id)]) <= timeout
  }

  function Expected(l: Ledger, a: RoutingAssertion, receiver: Bytes): AssertionResult {
    var ids := Correlations(l, a.sender);
    var got := set id | id in ids && InTime(l, receiver, id, Timeout(a));
    AssertionResult(a.sender, receiver, MustReceive, ids != {} && |got| == |ids|, |got|)
  }

  function Forbidden(l: Ledger, a: RoutingAssertion, receiver: Bytes): AssertionResult {
    var ids := Correlations(l, a.sender);
    var got := set id | id in ids && (receiver, id) in l.seen;
    AssertionResult(a.sender, receiver, MustNotReceive, ids != {} && |got| == 0, |got|)
  }

  function EvaluateOne(l: Ledger, a: RoutingAssertion): seq<AssertionResult> {
    seq(|a.receivers|, i requires 0 <= i < |a.receivers| => Expected(l, a, a.receivers[i]))
    + seq(|a.forbiddenReceivers|, i requires 0 <= i < |a.forbiddenReceivers| => Forbidden(l, a, a.forbiddenReceivers[i]))
  }

  function EvaluateRouting(l: Ledger, assertions: seq<RoutingAssertion>): seq<AssertionResult> {
    if assertions == [] then []
    else EvaluateOne(l, assertions[0]) + EvaluateRouting(l, assertions[1..])
  }

  /** The results of one assertion name its pairs: the expected receivers in order, then the forbidden ones. */
  lemma ResultsNamePairs(l: Ledger, a: RoutingAssertion)
    ensures var results := EvaluateOne(l, a); var n := |a.receivers|;
      && |results| == n + |a.forbiddenReceivers|
      && (forall i :: 0 <= i < |results| ==> results[i].sender == a.sender)
      && (forall i :: 0 <= i < n ==> results[i].receiver == a.receivers[i] && results[i].expectation == MustReceive)
      && (forall i :: n <= i < |results| ==>
            results[i].receiver == a.forbiddenReceivers[i - n] && results[i].expectation == MustNotReceive)
  {
    hide Correlations, InTime;
  }

  // ---- what the log says ----

  function LastReceipt(log: seq<Op>, receiver: Bytes, id: Bytes): Option<nat> {
    if log == [] then None
    else match Last(log)
      case Received(r, i, at) => if r == receiver && i == id then Some(at) else LastReceipt(Front(log), receiver, id)
      case Flushed(_, _, _) => LastReceipt(Front(log), receiver, id)
  }

  /** Every id is flushed at most once: ids are fresh, and a batch is flushed or dropped, never both. */
  ghost predicate FreshIds(log: seq<Op>) {
    forall i, j :: 0 <= i < j < |log| && log[i].Flushed? && log[j].Flushed? ==> log[i].id != log[j].id
  }

  lemma {:induction false} SeenIsLastReceipt(log: seq<Op>, receiver: Bytes, id: Bytes)
    ensures var seen := Replay(log).seen;
      LastReceipt(log, receiver, id) == if (receiver, id) in seen then Some(seen[(receiver, id)]) else None
  {
    if log != [] {
      SeenIsLastReceipt(Front(log), receiver, id);
    }
  }

  lemma LastIsFresh(log: seq<Op>)
    requires FreshIds(log) && log != [] && Last(log).Flushed?
    ensures forall op :: op in Front(log) && op.Flushed? ==> op.id != Last(log).id
  {
    forall op | op in Front(log) && op.Flushed?
      ensures op.id != Last(log).id
    {
      var i :| 0 <= i < |Front(log)| && Front(log)[i] == op;
      assert log[i] == op;
    }
  }

  lemma {:induction false} SentIsFlushed(log: seq<Op>, sender: Bytes, id: Bytes, at: nat)
    requires FreshIds(log)
    ensures (id in Replay(log).sent && Replay(log).sent[id] == (sender, at)) <==> Flushed(sender, id, at) in log
    decreases |log|
  {
    if log != [] {
      var before, op := Front(log), Last(log);
      assert log == before + [op];
      SentIsFlushed(before, sender, id, at);
      if op.Flushed? {
        LastIsFresh(log);
      }
    }
  }

  /** `sender` flushed at least one event, and `receiver` last received each of them in time. */
  ghost predicate DeliveredInTime(log: seq<Op>, sender: Bytes, receiver: Bytes, timeout: nat) {
    && (exists id, at: nat :: Flushed(sender, id, at) in log)
    && forall id, at: nat :: Flushed(sender, id, at) in log ==>
         LastReceipt(log, receiver, id).Some? && LastReceipt(log, receiver, id).value <= at + timeout
  }

  /** `sender` flushed at least one event, and `receiver` received none of them. */
  ghost predicate NeverDelivered(log: seq<Op>, sender: Bytes, receiver: Bytes) {
    && (exists id, at: nat :: Flushed(sender, id, at) in log)
    && forall id, at: nat :: Flushed(sender, id, at) in log ==> LastReceipt(log, receiver, id).None?
  }

  lemma CorrelationsAreFlushed(log: seq<Op>, sender: Bytes)
    requires FreshIds(log)
    ensures forall id :: id in Correlations(Replay(log), sender) <==> exists at: nat :: Flushed(sender, id, at) in log
    ensures forall id, at: nat :: Flushed(sender, id, at) in log ==>
      id in Replay(log).sent && Replay(log).sent[id] == (sender, at)
  {
    var l := Replay(log);
    forall id | id in l.sent && l.sent[id].0 == sender
      ensures Flushed(sender, id, l.sent[id].1) in log
    {
      SentIsFlushed(log, sender, id, l.sent[id].1);
    }
    forall id, at: nat | Flushed(sender, id, at) in log
      ensures id in l.sent && l.sent[id] == (sender, at)
    {
      SentIsFlushed(log, sender, id, at);
    }
  }

  lemma SomeFlushed(log: seq<Op>, sender: Bytes)
    requires FreshIds(log)
    ensures Correlations(Replay(log), sender) != {} <==> exists id, at: nat :: Flushed(sender, id, at) in log
  {
    hide Replay;
    CorrelationsAreFlushed(log, sender);
    var ids := Correlations(Replay(log), sender);
    if ids != {} {
      var id :| id in ids;
      var at: nat :| Flushed(sender, id, at) in log;
    } else {
      assert forall id, at: nat :: Flushed(sender, id, at) in log ==> id in ids;
    }
  }

  lemma SubsetOfSameSize(a: set<Bytes>, b: set<Bytes>)
    requires a <= b
    ensures |a| == |b| <==> a == b
  {
    assert b == a + (b - a) && a * (b - a) == {};
  }

  /** The expected verdict, read from the log alone: within the assertion's own timeout, or thirty seconds. */
  lemma ExpectedReadsLog(log: seq<Op>, a: RoutingAssertion, receiver: Bytes)
    requires FreshIds(log)
    ensures var limit := if a.timeout.Some? then a.timeout.value else 30_000_000_000;
      Expected(Replay(log), a, receiver).passed <==> DeliveredInTime(log, a.sender, receiver, limit)
  {
    var l := Replay(log);
    hide Replay, LastReceipt;
    CorrelationsAreFlushed(log, a.sender);
    var ids := Correlations(l, a.sender);
    var got := set id | id in ids && InTime(l, receiver, id, Timeout(a));
    SubsetOfSameSize(got, ids);
    forall id
      ensures LastReceipt(log, receiver, id) == if (receiver, id) in l.seen then Some(l.seen[(receiver, id)]) else None
    {
      SeenIsLastReceipt(log, receiver, id);
    }
    assert got == ids <==> forall id :: id in ids ==> InTime(l, receiver, id, Timeout(a));
    SomeFlushed(log, a.sender);
    assert forall id, at: nat :: Flushed(a.sender, id, at) in log ==> id in ids;
    if got == ids {
      forall id, at: nat | Flushed(a.sender, id, at) in log
        ensures LastReceipt(log, receiver, id).Some? && LastReceipt(log, receiver, id).value <= at + Timeout(a)
      {
        assert InTime(l, receiver, id, Timeout(a));
      }
    }
  }

  lemma ForbiddenReadsLog(log: seq<Op>, a: RoutingAssertion, receiver: Bytes)
    requires FreshIds(log)
    ensures Forbidden(Replay(log), a, receiver).passed <==> NeverDelivered(log, a.sender, receiver)
  {
    var l := Replay(log);
    hide Replay, LastReceipt;
    CorrelationsAreFlushed(log, a.sender);
    var ids := Correlations(l, a.sender);
    var got := set id | id in ids && (receiver, id) in l.seen;
    forall id
      ensures LastReceipt(log, receiver, id).Some? <==> (receiver, id) in l.seen
    {
      SeenIsLastReceipt(log, receiver, id);
    }
    assert |got| == 0 <==> got == {};
    assert forall id :: id in got <==> id in ids && (receiver, id) in l.seen;
    SomeFlushed(log, a.sender);
    assert forall id, at: nat :: Flushed(a.sender, id, at) in log ==> id in ids;
  }

  /** The ids that `sender` flushed and `receiver` last received within `timeout`; without one, at all. */
  ghost function ReceivedIds(log: seq<Op>, sender: Bytes, receiver: Bytes, timeout: Option<nat>): set<Bytes> {
    set op | op in log && op.Flushed? && op.sender == sender
             && LastReceipt(log, receiver, op.id).Some?
             && (timeout.Some? ==> LastReceipt(log, receiver, op.id).value <= op.at + timeout.value)
      :: op.id
  }

  lemma SeenIsLastReceipts(log: seq<Op>, receiver: Bytes)
    ensures forall id ::
      LastReceipt(log, receiver, id) ==
      (if (receiver, id) in Replay(log).seen then Some(Replay(log).seen[(receiver, id)]) else None)
  {
    forall id
      ensures LastReceipt(log, receiver, id) ==
              if (receiver, id) in Replay(log).seen then Some(Replay(log).seen[(receiver, id)]) else None
    {
      SeenIsLastReceipt(log, receiver, id);
    }
  }

  lemma InTimeReadsLog(log: seq<Op>, sender: Bytes, receiver: Bytes, timeout: nat)
    requires FreshIds(log)
    ensures (set id | id in Correlations(Replay(log), sender) && InTime(Replay(log), receiver, id, timeout)) ==
            ReceivedIds(log, sender, receiver, Some(timeout))
  {
    CorrelationsAreFlushed(log, sender);
    SeenIsLastReceipts(log, receiver);
    var l := Replay(log);
    hide Replay, LastReceipt;
    forall id | id in Correlations(l, sender) && InTime(l, receiver, id, timeout)
      ensures id in ReceivedIds(log, sender, receiver, Some(timeout))
    {
      var at: nat :| Flushed(sender, id, at) in log;
    }
  }

  lemma EverReadsLog(log: seq<Op>, sender: Bytes, receiver: Bytes)
    requires FreshIds(log)
    ensures (set id | id in Correlations(Replay(log), sender) && (receiver, id) in Replay(log).seen) ==
            ReceivedIds(log, sender, receiver, None)
  {
    CorrelationsAreFlushed(log, sender);
    SeenIsLastReceipts(log, receiver);
    var l := Replay(log);
    hide Replay, LastReceipt;
    forall id | id in Correlations(l, sender) && (receiver, id) in l.seen
      ensures id in ReceivedIds(log, sender, receiver, None)
    {
      var at: nat :| Flushed(sender, id, at) in log;
    }
  }

  /** The reported counts, read from the log alone. */
  lemma CountsReadLog(log: seq<Op>, a: RoutingAssertion, receiver: Bytes)
    requires FreshIds(log)
    ensures var limit := if a.timeout.Some? then a.timeout.value else 30_000_000_000;
      Expected(Replay(log), a, receiver).receivedCount == |ReceivedIds(log, a.sender, receiver, Some(limit))|
    ensures Forbidden(Replay(log), a, receiver).receivedCount == |ReceivedIds(log, a.sender, receiver, None)|
  {
    InTimeReadsLog(log, a.sender, receiver, Timeout(a));
    EverReadsLog(log, a.sender, receiver);
    hide Replay, InTime, Correlations, ReceivedIds;
  }

  ghost predicate Met(log: seq<Op>, a: RoutingAssertion) {
    var limit := if a.timeout.Some? then a.timeout.value else 30_000_000_000;
    && (forall r :: r in a.receivers ==> DeliveredInTime(log, a.sender, r, limit))
    && (forall r :: r in a.forbiddenReceivers ==> NeverDelivered(log, a.sender, r))
  }

  predicate AllPassed(results: seq<AssertionResult>) {
    forall r :: r in results ==> r.passed
  }

  lemma AllPassedConcat(a: seq<AssertionResult>, b: seq<AssertionResult>)
    ensures AllPassed(a + b) <==> AllPassed(a) && AllPassed(b)
  {
    assert forall r :: r in a + b <==> r in a || r in b;
  }

  lemma OnePassesExactly(log: seq<Op>, a: RoutingAssertion)
    requires FreshIds(log)
    ensures AllPassed(EvaluateOne(Replay(log), a)) <==> Met(log, a)
  {
    var l := Replay(log);
    hide Replay, DeliveredInTime, NeverDelivered, Expected, Forbidden;
    var expected := seq(|a.receivers|, i requires 0 <= i < |a.receivers| => Expected(l, a, a.receivers[i]));
    var limit := if a.timeout.Some? then a.timeout.value else 30_000_000_000;
    var forbidden :=
      seq(|a.forbiddenReceivers|, i requires 0 <= i < |a.forbiddenReceivers| => Forbidden(l, a, a.forbiddenReceivers[i]));
    AllPassedConcat(expected, forbidden);
    forall i | 0 <= i < |a.receivers|
      ensures expected[i].passed <==> DeliveredInTime(log, a.sender, a.receivers[i], limit)
    {
      ExpectedReadsLog(log, a, a.receivers[i]);
    }
    forall i | 0 <= i < |a.forbiddenReceivers|
      ensures forbidden[i].passed <==> NeverDelivered(log, a.sender, a.forbiddenReceivers[i])
    {
      ForbiddenReadsLog(log, a, a.forbiddenReceivers[i]);
    }
    assert AllPassed(expected) <==> forall i :: 0 <= i < |expected| ==> expected[i].passed;
    assert AllPassed(expected) <==> forall r :: r in a.receivers ==> DeliveredInTime(log, a.sender, r, limit);
    assert AllPassed(forbidden) ==> forall i :: 0 <= i < |forbidden| ==> forbidden[i] in forbidden && forbidden[i].passed;
  }

  /** The whole routing verdict: every assertion passes exactly when the log meets all of them. */
  lemma {:induction false} VerdictReadsLog(log: seq<Op>, assertions: seq<RoutingAssertion>)
    requires FreshIds(log)
    ensures AllPassed(EvaluateRouting(Replay(log), assertions)) <==> forall a :: a in assertions ==> Met(log, a)
  {
    if assertions != [] {
      OnePassesExactly(log, assertions[0]);
      VerdictReadsLog(log, assertions[1..]);
      hide Met, Replay, EvaluateOne, AllPassed;
      AllPassedConcat(EvaluateOne(Replay(log), assertions[0]), EvaluateRouting(Replay(log), assertions[1..]));
      assert forall a :: a in assertions <==> a == assertions[0] || a in assertions[1..];
    }
  }

  /** Whatever their time limits, the two expectations never both hold of one pair. */
  lemma NeverBothPass(l: Ledger, a: RoutingAssertion, b: RoutingAssertion, receiver: Bytes)
    requires a.sender == b.sender
    ensures !(Expected(l, a, receiver).passed && Forbidden(l, b, receiver).passed)
  {
    var ids := Correlations(l, a.sender);
    var inTime := set id | id in ids && InTime(l, receiver, id, Timeout(a));
    var ever := set id | id in ids && (receiver, id) in l.seen;
    assert inTime <= ever;
    SubsetOfSameSize(inTime, ids);
    if |ever| == 0 {
      assert ever == {};
    }
  }

  // ---- independence of the schedule ----

  function ReceiptsOf(log: seq<Op>, receiver: Bytes): seq<Op> {
    if log == [] then []
    else ReceiptsOf(Front(log), receiver)
         + if Last(log).Received? && Last(log).receiver == receiver then [Last(log)] else []
  }

  function FlushesOf(log: seq<Op>, sender: Bytes): seq<Op> {
    if log == [] then []
    else FlushesOf(Front(log), sender)
         + if Last(log).Flushed? && Last(log).sender == sender then [Last(log)] else []
  }

  lemma {:induction false} LastReceiptIsLocal(log: seq<Op>, receiver: Bytes, id: Bytes)
    ensures LastReceipt(log, receiver, id) == LastReceipt(ReceiptsOf(log, receiver), receiver, id)
  {
    if log != [] {
      var own := ReceiptsOf(log, receiver);
      LastReceiptIsLocal(Front(log), receiver, id);
      if Last(log).Received? && Last(log).receiver == receiver {
        assert Front(own) == ReceiptsOf(Front(log), receiver) && Last(own) == Last(log);
      } else {
        assert own == ReceiptsOf(Front(log), receiver);
      }
    }
  }

  lemma {:induction false} FlushIsLocal(log: seq<Op>, sender: Bytes, op: Op)
    requires op.Flushed? && op.sender == sender
    ensures op in log <==> op in FlushesOf(log, sender)
  {
    if log != [] {
      assert log == Front(log) + [Last(log)];
      FlushIsLocal(Front(log), sender, op);
    }
  }

  /** Two schedules of the same tasks: every task's own operations in its own order. */
  ghost predicate SameTasks(a: seq<Op>, b: seq<Op>) {
    && (forall r :: ReceiptsOf(a, r) == ReceiptsOf(b, r))
    && (forall s :: FlushesOf(a, s) == FlushesOf(b, s))
  }

  /** However the tasks interleave, they leave the same ledger behind. */
  lemma LedgerIgnoresSchedule(a: seq<Op>, b: seq<Op>)
    requires FreshIds(a) && FreshIds(b) && SameTasks(a, b)
    ensures Replay(a) == Replay(b)
  {
    var la, lb := Replay(a), Replay(b);
    hide Replay, ReceiptsOf, FlushesOf, LastReceipt;
    forall key: (Bytes, Bytes)
      ensures key in la.seen <==> key in lb.seen
      ensures key in la.seen ==> la.seen[key] == lb.seen[key]
    {
      var (r, id) := key;
      SeenIsLastReceipt(a, r, id);
      SeenIsLastReceipt(b, r, id);
      LastReceiptIsLocal(a, r, id);
      LastReceiptIsLocal(b, r, id);
    }
    assert la.seen == lb.seen;
    SentWithin(a, b);
    SentWithin(b, a);
    assert la.sent == lb.sent;
  }

  lemma SentWithin(a: seq<Op>, b: seq<Op>)
    requires FreshIds(a) && FreshIds(b) && SameTasks(a, b)
    ensures forall id :: id in Replay(a).sent ==> id in Replay(b).sent && Replay(a).sent[id] == Replay(b).sent[id]
  {
    var la, lb := Replay(a), Replay(b);
    hide Replay, FlushesOf;
    forall id | id in la.sent
      ensures id in lb.sent && la.sent[id] == lb.sent[id]
    {
      var (sender, at) := la.sent[id];
      SentIsFlushed(a, sender, id, at);
      SentIsFlushed(b, sender, id, at);
      FlushIsLocal(a, sender, Flushed(sender, id, at));
      FlushIsLocal(b, sender, Flushed(sender, id, at));
    }
  }

  lemma {:induction false} VerdictIgnoresSchedule(a: seq<Op>, b: seq<Op>, assertions: seq<RoutingAssertion>)
    requires FreshIds(a) && FreshIds(b) && SameTasks(a, b)
    ensures EvaluateRouting(Replay(a), assertions) == EvaluateRouting(Replay(b), assertions)
  {
    LedgerIgnoresSchedule(a, b);
  }

  // ---- duplicates ----

  function Receipts(log: seq<Op>): nat {
    if log == [] then 0 else Receipts(Front(log)) + if Last(log).Received? then 1 else 0
  }

  /** Receipts for which `seen.insert` returned an earlier time. */
  function Duplicates(log: seq<Op>): nat {
    if log == [] then 0
    else
      var op := Last(log);
      Duplicates(Front(log))
      + if op.Received? && (op.receiver, op.id) in Replay(Front(log)).seen then 1 else 0
  }

  /** Across all receivers and connections, every correlated receipt is a first one or a duplicate. */
  lemma {:induction false} ReceiptsAreSeenOrDuplicate(log: seq<Op>)
    ensures Receipts(log) == |Replay(log).seen| + Duplicates(log)
  {
    if log != [] {
      ReceiptsAreSeenOrDuplicate(Front(log));
      var before, after := Replay(Front(log)).seen, Replay(log).seen;
      if Last(log).Received? {
        var key := (Last(log).receiver, Last(log).id);
        assert after.Keys == before.Keys + {key};
        assert |after| == |after.Keys| && |before| == |before.Keys|;
      }
    }
  }
}
