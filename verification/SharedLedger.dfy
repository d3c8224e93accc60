/**
 The correlation ledger as the tasks share it: two maps behind a lock.  `log` is history: the operations of
 all tasks in the order in which they took the lock.
 */
module SharedLedger {
  import opened Wrappers
  import opened Marker
  import opened Ledger
  import opened Metrics

  /** What other tasks do to the shared objects while one is waiting: to the ledger, and to the counters. */
  datatype Meanwhile = Meanwhile(ops: seq<Op>, counts: MessageCounters)

  /** The flushes of a batch, in order. */
  function FlushOps(sender: Bytes, marks: seq<(Bytes, nat)>): seq<Op> {
    seq(|marks|, i requires 0 <= i < |marks| => Flushed(sender, marks[i].0, marks[i].1))
  }

  lemma ReplayOne(log: seq<Op>, op: Op)
    ensures Replay(log + [op]) == Apply(Replay(log), op)
  {
    assert Front(log + [op]) == log;
  }

  class CorrelationLedger {
    var sent: map<Bytes, (Bytes, nat)>
    var seen: map<(Bytes, Bytes), nat>
    ghost var log: seq<Op>

    constructor ()
      ensures Valid() && log == []
    {
      sent, seen, log := map[], map[], [];
    }

    function Value(): Ledger
      reads this
    {
      Ledger(sent, seen)
    }

    /** The maps hold what the log says. */
    ghost predicate Valid()
      reads this
    {
      Value() == Replay(log)
    }

    /** The drain of a flushed batch into the ledger, in order and under one lock. */
    method RecordFlush(sender: Bytes, marks: seq<(Bytes, nat)>)
      requires Valid()
      modifies this
      ensures Valid() && log == old(log) + FlushOps(sender, marks)
    {
      var i := 0;
      hide Replay;
      assert log + FlushOps(sender, marks[..0]) == log;
      while i < |marks|
        invariant 0 <= i <= |marks|
        invariant Valid() && log == old(log) + FlushOps(sender, marks[..i])
      {
        ReplayOne(log, Flushed(sender, marks[i].0, marks[i].1));
        assert FlushOps(sender, marks[..i]) + [Flushed(sender, marks[i].0, marks[i].1)] == FlushOps(sender, marks[..i + 1]);
        sent := sent[marks[i].0 := (sender, marks[i].1)];
        log := log + [Flushed(sender, marks[i].0, marks[i].1)];
        i := i + 1;
      }
      assert marks[..|marks|] == marks;
    }

    /** A receipt; whether this receiver had seen the id before. */
    method RecordReceipt(receiver: Bytes, id: Bytes, now: nat) returns (duplicate: bool)
      requires Valid()
      modifies this
      ensures Valid() && log == old(log) + [Received(receiver, id, now)]
      ensures duplicate <==> (receiver, id) in old(Replay(log)).seen
    {
      ReplayOne(log, Received(receiver, id, now));
      hide Replay;
      duplicate := (receiver, id) in seen;
      seen := seen[(receiver, id) := now];
      log := log + [Received(receiver, id, now)];
    }

    /** What other tasks do while this one is not holding the lock. */
    method Interleave(ops: seq<Op>)
      requires Valid()
      modifies this
      ensures Valid() && log == old(log) + ops
    {
      var i := 0;
      hide Replay;
      while i < |ops|
        invariant 0 <= i <= |ops|
        invariant Valid() && log == old(log) + ops[..i]
      {
        ReplayOne(log, ops[i]);
        match ops[i] {
          case Flushed(sender, id, at) => sent := sent[id := (sender, at)];
          case Received(receiver, id, at) => seen := seen[(receiver, id) := at];
        }
        log := log + [ops[i]];
        i := i + 1;
      }
      assert ops[..|ops|] == ops;
    }
  }

  // ---- what each task contributes to a log ----

  lemma {:induction false} FlushesAppend(a: seq<Op>, b: seq<Op>, sender: Bytes)
    ensures FlushesOf(a + b, sender) == FlushesOf(a, sender) + FlushesOf(b, sender)
    decreases |b|
  {
    if b == [] {
      assert a + b == a;
    } else {
      assert Front(a + b) == a + Front(b) && Last(a + b) == Last(b);
      FlushesAppend(a, Front(b), sender);
    }
  }

  lemma {:induction false} ReceiptsAppend(a: seq<Op>, b: seq<Op>, receiver: Bytes)
    ensures ReceiptsOf(a + b, receiver) == ReceiptsOf(a, receiver) + ReceiptsOf(b, receiver)
    decreases |b|
  {
    if b == [] {
      assert a + b == a;
    } else {
      assert Front(a + b) == a + Front(b) && Last(a + b) == Last(b);
      ReceiptsAppend(a, Front(b), receiver);
    }
  }

  lemma {:induction false} OwnFlushes(sender: Bytes, marks: seq<(Bytes, nat)>, other: Bytes)
    ensures FlushesOf(FlushOps(sender, marks), other) == if other == sender then FlushOps(sender, marks) else []
    ensures ReceiptsOf(FlushOps(sender, marks), other) == []
    decreases |marks|
  {
    if marks != [] {
      OwnFlushes(sender, marks[..|marks| - 1], other);
      FlushOpsEnd(sender, marks);
      hide FlushOps;
    }
  }

  lemma FlushOpsEnd(sender: Bytes, marks: seq<(Bytes, nat)>)
    requires marks != []
    ensures var ops, front, last := FlushOps(sender, marks), FlushOps(sender, marks[..|marks| - 1]), marks[|marks| - 1];
      ops != [] && Front(ops) == front && Last(ops) == Flushed(sender, last.0, last.1) && ops == front + [Last(ops)]
  {
  }

  // ---- how many ----

  function Flushes(log: seq<Op>): nat {
    if log == [] then 0 else Flushes(Front(log)) + if Last(log).Flushed? then 1 else 0
  }

  lemma FreshFront(log: seq<Op>)
    requires log != [] && FreshIds(log)
    ensures FreshIds(Front(log))
  {
  }

  /** A flush of a fresh id adds an entry. */
  lemma LastIsNew(log: seq<Op>)
    requires log != [] && FreshIds(log) && Last(log).Flushed?
    ensures Last(log).id !in Replay(Front(log)).sent
  {
    var before, id := Front(log), Last(log).id;
    LastIsFresh(log);
    hide Replay;
    if id in Replay(before).sent {
      var (sender, at) := Replay(before).sent[id];
      SentIsFlushed(before, sender, id, at);
    }
  }

  /** With fresh ids the ledger holds one entry for each flush of any task. */
  lemma {:induction false} SentCountsFlushes(log: seq<Op>)
    requires FreshIds(log)
    ensures |Replay(log).sent| == Flushes(log)
    decreases |log|
  {
    if log != [] {
      FreshFront(log);
      SentCountsFlushes(Front(log));
      var before, after := Replay(Front(log)).sent, Replay(log).sent;
      if Last(log).Flushed? {
        LastIsNew(log);
        assert after.Keys == before.Keys + {Last(log).id};
        assert |after| == |after.Keys| && |before| == |before.Keys|;
      }
    }
  }

  /** The receipts of one receiver for which it had seen the id before. */
  function OwnDuplicates(log: seq<Op>, receiver: Bytes): nat {
    if log == [] then 0
    else
      var op := Last(log);
      OwnDuplicates(Front(log), receiver)
      + if op.Received? && op.receiver == receiver && (receiver, op.id) in Replay(Front(log)).seen then 1 else 0
  }

  lemma OneMoreReceipt(log: seq<Op>, receiver: Bytes, id: Bytes, at: nat)
    ensures OwnDuplicates(log + [Received(receiver, id, at)], receiver) ==
            OwnDuplicates(log, receiver) + if (receiver, id) in Replay(log).seen then 1 else 0
  {
    assert Front(log + [Received(receiver, id, at)]) == log;
  }

  /** What others do leaves a receiver's duplicates alone. */
  lemma {:induction false} OthersDuplicateNothing(log: seq<Op>, ops: seq<Op>, receiver: Bytes)
    requires ReceiptsOf(ops, receiver) == []
    ensures OwnDuplicates(log + ops, receiver) == OwnDuplicates(log, receiver)
    decreases |ops|
  {
    if ops == [] {
      assert log + ops == log;
    } else {
      assert Front(log + ops) == log + Front(ops) && Last(log + ops) == Last(ops);
      OthersDuplicateNothing(log, Front(ops), receiver);
    }
  }

  /** The sum of `f` over the names. */
  function Sum(names: seq<Bytes>, f: Bytes -> nat): nat {
    if names == [] then 0 else f(names[0]) + Sum(names[1..], f)
  }

  /** One of the summands goes up by `d`, the others stay. */
  lemma {:induction false} SumRises(names: seq<Bytes>, f: Bytes -> nat, g: Bytes -> nat, name: Bytes, d: nat)
    requires Distinct(names) && forall n :: g(n) == f(n) + if n == name then d else 0
    ensures Sum(names, g) == Sum(names, f) + if name in names then d else 0
    decreases |names|
  {
    if names != [] {
      assert forall i :: 0 <= i < |names[1..]| ==> names[1..][i] == names[i + 1];
      SumRises(names[1..], f, g, name, d);
      assert name in names <==> name == names[0] || name in names[1..];
      assert names[0] !in names[1..];
    }
  }

  /** All the flushes in a log, sender by sender. */
  lemma {:induction false} FlushesBySender(log: seq<Op>, names: seq<Bytes>)
    requires Distinct(names) && forall op :: op in log && op.Flushed? ==> op.sender in names
    ensures Flushes(log) == Sum(names, n => |FlushesOf(log, n)|)
    decreases |log|
  {
    if log == [] {
      SumOfZeros(names, n => |FlushesOf(log, n)|);
    } else {
      var op := Last(log);
      assert log == Front(log) + [op];
      FlushesBySender(Front(log), names);
      if op.Flushed? {
        assert op in log;
        SumRises(names, n => |FlushesOf(Front(log), n)|, n => |FlushesOf(log, n)|, op.sender, 1);
      } else {
        SumRises(names, n => |FlushesOf(Front(log), n)|, n => |FlushesOf(log, n)|, [], 0);
      }
    }
  }

  lemma {:induction false} SumOfZeros(names: seq<Bytes>, f: Bytes -> nat)
    requires forall n :: f(n) == 0
    ensures Sum(names, f) == 0
    decreases |names|
  {
    if names != [] {
      SumOfZeros(names[1..], f);
    }
  }

  /** All the duplicates in a log, receiver by receiver. */
  lemma {:induction false} DuplicatesByReceiver(log: seq<Op>, names: seq<Bytes>)
    requires Distinct(names) && forall op :: op in log && op.Received? ==> op.receiver in names
    ensures Duplicates(log) == Sum(names, n => OwnDuplicates(log, n))
    decreases |log|
  {
    if log == [] {
      SumOfZeros(names, n => OwnDuplicates(log, n));
    } else {
      var op := Last(log);
      assert log == Front(log) + [op];
      DuplicatesByReceiver(Front(log), names);
      var again := op.Received? && (op.receiver, op.id) in Replay(Front(log)).seen;
      if again {
        assert op in log;
        SumRises(names, n => OwnDuplicates(Front(log), n), n => OwnDuplicates(log, n), op.receiver, 1);
      } else {
        SumRises(names, n => OwnDuplicates(Front(log), n), n => OwnDuplicates(log, n), [], 0);
      }
    }
  }
}
