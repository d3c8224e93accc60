/**
 How many entries the shared ledger holds, over all senders, all their connections and all interleavings.
 */
module Totals {
  import opened Wrappers
  import opened Marker
  import opened Numbers
  import opened Ledger
  import opened SharedLedger
  import opened Outgoing
  import opened Sender
  import opened Conservation
  import opened Cadence

  /** One participant's send loops, a connection after the other. */
  datatype Career = Career(cfg: SenderConfig, conns: seq<Connection>)

  /** What a participant entered in the ledger, connection by connection. */
  function Flushed(cfg: SenderConfig, conns: seq<Connection>): seq<Correlation> {
    if conns == [] then [] else conns[0].Final(cfg).flushed + Flushed(cfg, conns[1..])
  }

  /** The events it counted as sent, less the invalid ones among them. */
  function ValidSent(cfg: SenderConfig, conns: seq<Connection>): nat {
    if conns == [] then 0
    else
      var sent := conns[0].Final(cfg).sent;
      sent - Min(sent, InvalidBound(cfg)) + ValidSent(cfg, conns[1..])
  }

  function AllValidSent(careers: seq<Career>): nat {
    if careers == [] then 0 else ValidSent(careers[0].cfg, careers[0].conns) + AllValidSent(careers[1..])
  }

  function NamesOf(careers: seq<Career>): seq<Bytes> {
    seq(|careers|, i requires 0 <= i < |careers| => careers[i].cfg.participant)
  }

  /** A log of these participants, however interleaved: each flushed what its connections did, in order. */
  ghost predicate LogOf(log: seq<Op>, careers: seq<Career>) {
    && Distinct(NamesOf(careers))
    && (forall op :: op in log && op.Flushed? ==> op.sender in NamesOf(careers))
    && Contributes(log, careers)
  }

  ghost predicate Contributes(log: seq<Op>, careers: seq<Career>) {
    forall c :: c in careers ==>
      FlushesOf(log, c.cfg.participant) == FlushOps(c.cfg.participant, Flushed(c.cfg, c.conns))
  }

  lemma {:induction false} FlushedIsValidSent(cfg: SenderConfig, conns: seq<Connection>)
    ensures |Flushed(cfg, conns)| == ValidSent(cfg, conns)
    decreases |conns|
  {
    if conns != [] {
      FlushedAreValidSent(cfg, conns[0].link, conns[0].wakes);
      hide Run;
      FlushedIsValidSent(cfg, conns[1..]);
    }
  }

  lemma {:induction false} SumIsValidSent(log: seq<Op>, careers: seq<Career>)
    requires Contributes(log, careers)
    ensures Sum(NamesOf(careers), n => |FlushesOf(log, n)|) == AllValidSent(careers)
    decreases |careers|
  {
    if careers != [] {
      var c := careers[0];
      assert c in careers;
      FlushedIsValidSent(c.cfg, c.conns);
      assert forall d :: d in careers[1..] ==> d in careers;
      hide FlushesOf, Flushed, ValidSent;
      SumIsValidSent(log, careers[1..]);
      assert NamesOf(careers)[1..] == NamesOf(careers[1..]);
    }
  }

  /**
   In every log, whatever the interleaving: with fresh ids the ledger's sent entries are the events that all
   participants counted as sent on all their connections, less the invalid ones.  A connection that is still
   going is one whose wake-ups so far are given.
   */
  lemma {:induction false} SentEntriesAreValidSent(log: seq<Op>, careers: seq<Career>)
    requires FreshIds(log) && LogOf(log, careers)
    ensures |Replay(log).sent| == AllValidSent(careers)
  {
    hide FreshIds, Replay, FlushesOf, Flushes, Sum, AllValidSent, Contributes;
    SentCountsFlushes(log);
    FlushesBySender(log, NamesOf(careers));
    SumIsValidSent(log, careers);
  }
}
