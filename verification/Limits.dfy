/**
 What an accepted configuration promises of a whole run: who takes part, with which credentials, how
 much they send, and how much of it is invalid.
 */
module Limits {
  import opened Wrappers
  import opened Marker
  import opened Credentials
  import opened Cadence
  import opened Sender
  import opened Safety
  import opened RoundTrip
  import Ledger
  import P = Participants
  import L = Lifecycles
  import I = Interleavings

  /** The settings that one participant's send loop works with. */
  function SenderOf(c: AppConfig, id: Bytes): SenderConfig {
    SenderConfig(id, c.scenario.eventsPerWrite, c.scenario.chunkSizes, c.scenario.invalidEnabled,
                 c.scenario.invalidKind, c.scenario.maxInvalid, c.scenario.abruptEnabled, c.scenario.abruptAfter)
  }

  /** The settings that all participants' connection loops work with. */
  function ConnectionConfig(c: AppConfig): P.Config {
    P.Config(c.reconnect.enabled, c.reconnect.maxAttempts, (set id | id in c.waitForReady), c.tlsEnabled,
             c.scenario.slowConnect, c.scenario.abruptEnabled, c.abort)
  }

  /** Everyone has a name of their own that is safe in a path and in XML, and barrier and routing know it. */
  lemma ParticipantsAreSound(c: AppConfig)
    requires Accepted(c)
    ensures Distinct(NamesOf(c)) && forall id :: id in NamesOf(c) ==> IsSafe(id)
    ensures 0 < |NamesOf(c)| == c.run.clients <= c.run.maxClients
    ensures forall id :: id in ConnectionConfig(c).required ==> id in NamesOf(c)
    ensures forall a :: a in c.scenario.routing ==>
      a.sender in NamesOf(c) && forall id :: id in a.receivers + a.forbiddenReceivers ==> id in NamesOf(c)
  {
    assert !Breaks(c, ParticipantCountMismatch) && !Breaks(c, NoParticipants) && !Breaks(c, ClientLimit);
    assert !Breaks(c, InvalidParticipantId) && !Breaks(c, InvalidSynchronization) && !Breaks(c, InvalidRoutingAssertion);
    hide Accepted, Breaks, IsSafe;
    if c.participants == [] {
      GeneratedAreSound(c.run.clients);
    } else {
      ListedAreSound(c.participants);
    }
    forall a | a in c.scenario.routing
      ensures a.sender in NamesOf(c) && forall id :: id in a.receivers + a.forbiddenReceivers ==> id in NamesOf(c)
    {
      AssertionIsNamed(c, a);
    }
  }

  lemma GeneratedAreSound(clients: nat)
    ensures Distinct(Names([], clients)) && forall id :: id in Names([], clients) ==> IsSafe(id)
  {
    hide ClientName, IsSafe;
    forall i, j | 0 <= i < j < clients
      ensures ClientName(i) != ClientName(j)
    {
      ClientNamesDiffer(i, j);
    }
    forall i | 0 <= i < clients
      ensures IsSafe(ClientName(i))
    {
      ClientNamesDiffer(i, i);
    }
  }

  lemma ListedAreSound(ps: seq<ParticipantConfig>)
    requires IdsAreSound(ps)
    ensures forall id :: id in Ids(ps) ==> IsSafe(id)
  {
    hide IsSafe;
    forall id | id in Ids(ps)
      ensures IsSafe(id)
    {
      var i :| 0 <= i < |ps| && Ids(ps)[i] == id;
      assert ps[i] in ps;
    }
  }

  lemma Listed(ps: seq<ParticipantConfig>, p: ParticipantConfig)
    requires p in ps
    ensures p.id in Ids(ps)
  {
    var i :| 0 <= i < |ps| && ps[i] == p;
    assert Ids(ps)[i] == p.id;
  }

  lemma AssertionIsNamed(c: AppConfig, a: Ledger.RoutingAssertion)
    requires AssertionIsSound(c.participants, a)
    ensures c.participants != [] && a.sender in NamesOf(c)
    ensures forall id :: id in a.receivers + a.forbiddenReceivers ==> id in NamesOf(c)
  {
    var ps := c.participants;
    var p :| p in ps && p.id == a.sender && p.role != P.ReceiveOnly;
    Listed(ps, p);
    forall id | id in a.receivers + a.forbiddenReceivers
      ensures id in NamesOf(c)
    {
      var q :| q in ps && q.id == id && q.role != P.SendOnly;
      Listed(ps, q);
    }
  }

  /** With templates, every participant of an accepted configuration has a certificate and a key of its own. */
  lemma EveryoneHasOwnCredentials(c: AppConfig, i: nat, j: nat)
    requires Accepted(c) && i < j < |NamesOf(c)|
    ensures ForParticipant(c.tls, NamesOf(c)[i]).Ok? && ForParticipant(c.tls, NamesOf(c)[j]).Ok?
    ensures c.tls.clientCertTemplate.Some? || c.tls.clientKeyTemplate.Some? ==>
      var a, b := ForParticipant(c.tls, NamesOf(c)[i]).value, ForParticipant(c.tls, NamesOf(c)[j]).value;
      a.clientCert != b.clientCert && a.clientKey != b.clientKey
  {
    assert !Breaks(c, InvalidTlsTemplates) && !Breaks(c, InvalidParticipantId);
    hide Accepted, Breaks, ForParticipant, NamesOf;
    var names := NamesOf(c);
    assert names[i] in names && names[j] in names;
    if c.tls.clientCertTemplate.Some? || c.tls.clientKeyTemplate.Some? {
      assert names == Names(Ids(c.participants), c.run.clients) by { NamesAre(c); }
      CredentialsAreDistinct(c.tls, Ids(c.participants), c.run.clients, i, j);
    }
  }

  lemma NamesAre(c: AppConfig)
    ensures NamesOf(c) == Names(Ids(c.participants), c.run.clients)
  {
  }

  // ---- how much is sent ----

  /** The time between two events of one participant. */
  function Period(c: AppConfig): (period: nat)
    requires BoundsAreSound(c)
    ensures period >= c.run.gpsInterval
  {
    EmissionInterval(c.run.gpsInterval, if c.run.maxRate.Some? then Some(c.run.maxRate.value.value) else None)
  }

  /**
   A gap in the bounds: the least rate they accept, 2^-64, asks for an interval longer than any duration, and
   computing it panics.  It is the only double that does.  Over real rates, as here, an interval fits a duration
   exactly if it is less than half a nanosecond beyond the longest.
   */
  lemma IntervalFitsExactly(c: AppConfig)
    requires BoundsAreSound(c) && c.run.gpsInterval <= Backoff.DURATION_MAX
    ensures Period(c) <= Backoff.DURATION_MAX <==>
      c.run.maxRate.Some? ==> SECOND as real / c.run.maxRate.value.value < Backoff.DURATION_MAX as real + 0.5
    ensures RateIsSound(Finite(1.0 / LONGEST))
    ensures c.run.maxRate == Some(Finite(1.0 / LONGEST)) ==> Period(c) > Backoff.DURATION_MAX
  {
    Reciprocal(1.0, LONGEST);
    Reciprocal(SECOND as real, LONGEST);
  }

  lemma Reciprocal(a: real, x: real)
    requires x > 0.0
    ensures 1.0 / x > 0.0 && a / (1.0 / x) == a * x
  {
    var r := 1.0 / x;
    var q := a / r;
    assert r * x == 1.0 && q * r == a;
    assert q == q * (r * x) == (q * r) * x;
  }

  /** For each participant, its connections one after the other within `time`. */
  ghost predicate Conduct(runs: seq<seq<Connection>>, time: nat, period: nat) {
    forall i :: 0 <= i < |runs| ==> Successive(runs[i], 0, time, period)
  }

  function EventsOf(c: AppConfig, names: seq<Bytes>, runs: seq<seq<Connection>>): nat
    requires |names| == |runs|
  {
    if runs == [] then 0 else TotalProduced(SenderOf(c, names[0]), runs[0]) + EventsOf(c, names[1..], runs[1..])
  }

  lemma {:induction false} EventsAreBounded(c: AppConfig, names: seq<Bytes>, runs: seq<seq<Connection>>, time: nat, period: nat)
    requires |names| == |runs| && period > 0 && Conduct(runs, time, period)
    ensures EventsOf(c, names, runs) <= |runs| * (time / period)
    decreases |runs|
  {
    if runs != [] {
      AtMostOnePerPeriod(SenderOf(c, names[0]), runs[0], time, period);
      assert forall i :: 0 <= i < |runs[1..]| ==> runs[1..][i] == runs[i + 1];
      EventsAreBounded(c, names[1..], runs[1..], time, period);
      I.OneMore(|runs| - 1, time / period);
      hide Successive, TotalProduced, SenderOf;
    }
  }

  lemma LongerPeriod(time: nat, a: nat, b: nat)
    requires 0 < a <= b
    ensures time / b <= time / a
  {
    Multiply(a, b, time / b);
    assert (time / b) * a <= (time / b) * b <= time;
    Divide(time / b, time, a);
  }

  lemma ProductionRules(c: AppConfig)
    requires Accepted(c) && c.environment.Production?
    ensures 0 < |NamesOf(c)| <= 3 && c.run.gpsInterval >= 30 * SECOND && c.run.duration <= 15 * 60 * SECOND
    ensures BoundsAreSound(c)
  {
    assert !Breaks(c, ProductionRate) && !Breaks(c, ProductionClients) && !Breaks(c, ProductionDuration);
    assert !Breaks(c, InvalidBounds);
    hide Accepted, BoundsAreSound, NamesOf;
    ParticipantsAreSound(c);
  }

  /** An accepted production run sends at most three events in every thirty seconds, ninety in all. */
  lemma ProductionIsSlow(c: AppConfig, runs: seq<seq<Connection>>, time: nat)
    requires Accepted(c) && c.environment.Production? && |runs| == |NamesOf(c)|
    requires BoundsAreSound(c) && Conduct(runs, time, Period(c))
    ensures EventsOf(c, NamesOf(c), runs) <= 3 * (time / (30 * SECOND))
    ensures time <= c.run.duration ==> EventsOf(c, NamesOf(c), runs) <= 90
  {
    hide Accepted, BoundsAreSound, NamesOf, Conduct, EventsOf;
    ProductionRules(c);
    EventsAreBounded(c, NamesOf(c), runs, time, Period(c));
    LongerPeriod(time, 30 * SECOND, Period(c));
    Multiply(|runs|, 3, time / Period(c));
  }

  // ---- how much of it is invalid ----

  function InvalidOf(c: AppConfig, names: seq<Bytes>, runs: seq<seq<Connection>>): nat
    requires |names| == |runs|
  {
    if runs == [] then 0 else TotalInvalid(SenderOf(c, names[0]), runs[0]) + InvalidOf(c, names[1..], runs[1..])
  }

  function InvalidMax(c: AppConfig): nat {
    if c.scenario.invalidEnabled && c.scenario.maxInvalid.Some? then c.scenario.maxInvalid.value else 0
  }

  lemma {:induction false} InvalidAreBounded(c: AppConfig, names: seq<Bytes>, runs: seq<seq<Connection>>, most: nat)
    requires |names| == |runs| && forall i :: 0 <= i < |runs| ==> |runs[i]| <= most
    ensures InvalidOf(c, names, runs) <= |runs| * (InvalidMax(c) * most)
    decreases |runs|
  {
    if runs != [] {
      InvalidPerRun(SenderOf(c, names[0]), runs[0]);
      CappedEachIsBounded(SenderOf(c, names[0]), runs[0]);
      Times(InvalidMax(c), |runs[0]|, most);
      assert forall i :: 0 <= i < |runs[1..]| ==> runs[1..][i] == runs[i + 1];
      InvalidAreBounded(c, names[1..], runs[1..], most);
      I.OneMore(|runs| - 1, InvalidMax(c) * most);
      hide TotalInvalid;
    }
  }

  lemma Times(a: nat, b: nat, d: nat)
    requires b <= d
    ensures a * b <= a * d
  {
  }

  /** Each participant had no more connections than its loop made in the run. */
  ghost predicate Happened(cfg: P.Config, w: P.World, events: seq<P.Event>, runs: seq<seq<Connection>>) {
    var after := P.Run(cfg, w, events).ps;
    |runs| == |after| && forall i :: 0 <= i < |runs| ==> |runs[i]| <= after[i].history.tally.successes
  }

  lemma ConnectionsAreFew(cfg: P.Config, w: P.World, events: seq<P.Event>, runs: seq<seq<Connection>>)
    requires P.Initial(w) && Happened(cfg, w, events, runs)
    ensures forall i :: 0 <= i < |runs| ==> |runs[i]| <= L.MaxAttempts(cfg) + 1
  {
    hide P.Run, P.Initial;
    forall i | 0 <= i < |runs|
      ensures |runs[i]| <= L.MaxAttempts(cfg) + 1
    {
      I.EachParticipant(cfg, w, events, i);
    }
  }

  /**
   Over a whole run of the participants: the configured bound is met at most once for each connection that
   a participant may make, and events are at least a second apart.
   */
  lemma InvalidAreFew(c: AppConfig, w: P.World, events: seq<P.Event>, runs: seq<seq<Connection>>)
    requires Accepted(c) && P.Initial(w) && |runs| == |NamesOf(c)|
    requires Happened(ConnectionConfig(c), w, events, runs)
    ensures InvalidOf(c, NamesOf(c), runs) <=
      c.run.clients * (InvalidMax(c) * (L.MaxAttempts(ConnectionConfig(c)) + 1))
    ensures c.scenario.invalidEnabled ==> InvalidMax(c) > 0 && BoundsAreSound(c) && Period(c) >= SECOND
  {
    InvalidRules(c);
    hide Accepted, NamesOf, BoundsAreSound, InvalidMax, Happened;
    ParticipantsAreSound(c);
    var cfg := ConnectionConfig(c);
    ConnectionsAreFew(cfg, w, events, runs);
    InvalidAreBounded(c, NamesOf(c), runs, L.MaxAttempts(cfg) + 1);
  }

  /**
   With the connections that the configuration allows a participant: its bound on invalid events is one on the
   whole run if and only if it is zero, reconnect is off, or `max_attempts` is zero.
   */
  lemma BoundHoldsByConfig(bound: nat, cfg: P.Config)
    ensures BoundHolds(bound, L.MaxAttempts(cfg) + 1) <==> bound == 0 || !cfg.reconnect || cfg.maxAttempts == 0
  {
    BoundHoldsExactly(bound, L.MaxAttempts(cfg) + 1);
    hide BoundHolds;
  }

  lemma InvalidRules(c: AppConfig)
    requires Accepted(c)
    ensures BoundsAreSound(c)
    ensures c.scenario.invalidEnabled ==> InvalidMax(c) > 0 && c.run.gpsInterval >= SECOND
  {
    assert !Breaks(c, InvalidEventLimit) && !Breaks(c, InvalidBounds);
  }

  /** A production run that is permitted sends well-formed documents and nothing else. */
  lemma ProductionSendsDocuments(c: AppConfig, o: SafetyOptions, isLoopback: Bytes -> bool, id: Bytes,
                                 conn: Connection, valid: Bytes -> bool)
    requires Permitted(c, o, isLoopback) && c.environment.Production?
    requires Clean(SenderOf(c, id), conn.wakes, valid)
    ensures Documents(conn.Produced(SenderOf(c, id)), valid)
    ensures o.allowProduction && c.acknowledged && c.host in c.allowHosts
  {
    assert !Forbids(c, o, isLoopback, InvalidEventsNotAllowed) && !Forbids(c, o, isLoopback, ProductionNotAllowed);
    assert !Forbids(c, o, isLoopback, AuthorizationRequired) && !Forbids(c, o, isLoopback, HostNotAllowed);
    hide Permitted, Forbids;
    assert InvalidBound(SenderOf(c, id)) == 0;
    hide SenderOf, Clean, Document, Run;
    RunProducesDocuments(SenderOf(c, id), conn.link, Start(), conn.wakes, valid);
  }
}
