/**
 How fast and how much one participant can send over a whole run, all its connections together
 (src/scenarios.rs:647-658, 709-716, 819-831).  Time is in nanoseconds.
 */
module Cadence {
  import opened Wrappers
  import opened Marker
  import opened Numbers
  import opened Outgoing
  import opened Sender
  import opened Conservation

  const SECOND: nat := 1_000_000_000

  /** `max_rate` can only lengthen the configured interval, to the rate's own to within half a nanosecond. */
  function EmissionInterval(gpsInterval: nat, maxRate: Option<real>): (interval: nat)
    requires maxRate.Some? ==> maxRate.value > 0.0
    ensures interval >= gpsInterval
    ensures maxRate.Some? ==> interval as real >= SECOND as real / maxRate.value - 0.5
    ensures interval > gpsInterval ==> maxRate.Some? && interval as real <= SECOND as real / maxRate.value + 0.5
  {
    match maxRate
    case None => gpsInterval
    case Some(rate) => Max(gpsInterval, (SECOND as real / rate + 0.5).Floor)
  }

  /** One connection of a participant: when its ticker was created and when it ended. */
  datatype Connection = Connection(start: nat, end: nat, link: Link, wakes: seq<Wake>)
  {
    function Final(cfg: SenderConfig): Sender { Run(cfg, link, Start(), wakes).0 }

    function Produced(cfg: SenderConfig): seq<Event> { Final(cfg).produced }
  }

  function Ticks(wakes: seq<Wake>): nat {
    if wakes == [] then 0 else (if wakes[0].Tick? then 1 else 0) + Ticks(wakes[1..])
  }

  /** The ticker's promise: after `k` ticks, the next comes no earlier than `k` + 1 periods from its start. */
  ghost predicate Paced(wakes: seq<Wake>, k: nat, start: nat, end: nat, period: nat)
    decreases |wakes|
  {
    wakes != [] ==>
      if wakes[0].Tick? then
        start + (k + 1) * period <= wakes[0].at <= end && Paced(wakes[1..], k + 1, start, end, period)
      else Paced(wakes[1..], k, start, end, period)
  }

  lemma {:induction false} TicksTakeTime(wakes: seq<Wake>, k: nat, start: nat, end: nat, period: nat)
    requires Paced(wakes, k, start, end, period) && start + k * period <= end
    ensures start + (k + Ticks(wakes)) * period <= end
    decreases |wakes|
  {
    if wakes != [] {
      var next := if wakes[0].Tick? then k + 1 else k;
      TicksTakeTime(wakes[1..], next, start, end, period);
      assert next + Ticks(wakes[1..]) == k + Ticks(wakes);
    }
  }

  lemma {:induction false} RunProducesPerTick(cfg: SenderConfig, link: Link, s: Sender, wakes: seq<Wake>)
    ensures |Run(cfg, link, s, wakes).0.produced| <= |s.produced| + Ticks(wakes)
    decreases |wakes|
  {
    if wakes != [] {
      StepProducesOne(cfg, link, s, wakes[0]);
      hide Step;
      RunProducesPerTick(cfg, link, Step(cfg, link, s, wakes[0]).0, wakes[1..]);
    }
  }

  lemma StepProducesOne(cfg: SenderConfig, link: Link, s: Sender, w: Wake)
    ensures |Step(cfg, link, s, w).0.produced| == |s.produced| + if w.Tick? then 1 else 0
  {
    hide Make, Marks;
  }

  /** Connections follow each other, each with its own ticker. */
  ghost predicate Successive(conns: seq<Connection>, from: nat, until: nat, period: nat) {
    if conns == [] then from <= until
    else
      var c := conns[0];
      && from <= c.start <= c.end && Paced(c.wakes, 0, c.start, c.end, period)
      && Successive(conns[1..], c.end, until, period)
  }

  function TotalProduced(cfg: SenderConfig, conns: seq<Connection>): nat {
    if conns == [] then 0 else |conns[0].Produced(cfg)| + TotalProduced(cfg, conns[1..])
  }

  /** Across all its reconnects a participant needs one period for each event. */
  lemma {:induction false} EventsTakeTime(cfg: SenderConfig, conns: seq<Connection>, from: nat, until: nat, period: nat)
    requires Successive(conns, from, until, period)
    ensures from + TotalProduced(cfg, conns) * period <= until
    decreases |conns|
  {
    if conns != [] {
      var c := conns[0];
      ConnectionTakesTime(cfg, c, period);
      EventsTakeTime(cfg, conns[1..], c.end, until, period);
      hide Connection.Produced, Successive, Paced;
      AddTimes(|c.Produced(cfg)|, TotalProduced(cfg, conns[1..]), period);
    }
  }

  lemma AddTimes(a: nat, b: nat, period: nat)
    ensures (a + b) * period == a * period + b * period
  {
  }

  lemma ConnectionTakesTime(cfg: SenderConfig, c: Connection, period: nat)
    requires c.start <= c.end && Paced(c.wakes, 0, c.start, c.end, period)
    ensures c.start + |c.Produced(cfg)| * period <= c.end
  {
    RunProducesPerTick(cfg, c.link, Start(), c.wakes);
    TicksTakeTime(c.wakes, 0, c.start, c.end, period);
    hide Run, Paced, Ticks;
    Multiply(|c.Produced(cfg)|, Ticks(c.wakes), period);
  }

  lemma Multiply(a: nat, b: nat, period: nat)
    requires a <= b
    ensures a * period <= b * period
  {
  }

  /** The rate limit: in any time a participant produces at most one event per whole period. */
  lemma AtMostOnePerPeriod(cfg: SenderConfig, conns: seq<Connection>, time: nat, period: nat)
    requires period > 0 && Successive(conns, 0, time, period)
    ensures TotalProduced(cfg, conns) <= time / period
  {
    EventsTakeTime(cfg, conns, 0, time, period);
    hide TotalProduced, Successive;
    Divide(TotalProduced(cfg, conns), time, period);
  }

  lemma Divide(n: nat, time: nat, period: nat)
    requires period > 0 && n * period <= time
    ensures n <= time / period
  {
    var q := time / period;
    assert (q + 1) * period == q * period + period;
    if n > q {
      Multiply(q + 1, n, period);
    }
  }

  // ---- invalid events ----

  function InvalidAmong(events: seq<Event>): nat {
    if events == [] then 0 else (if events[0].invalid.Some? then 1 else 0) + InvalidAmong(events[1..])
  }

  function TotalInvalid(cfg: SenderConfig, conns: seq<Connection>): nat {
    if conns == [] then 0 else InvalidAmong(conns[0].Produced(cfg)) + TotalInvalid(cfg, conns[1..])
  }

  lemma {:induction false} UnmarkedAreInvalid(events: seq<Event>)
    ensures InvalidAmong(events) + |Marks(events)| == |events|
  {
    if events != [] {
      UnmarkedAreInvalid(events[1..]);
    }
  }

  /** On one connection, exactly the first events up to the bound are invalid. */
  lemma InvalidPerConnection(cfg: SenderConfig, c: Connection)
    ensures InvalidAmong(c.Produced(cfg)) == Min(|c.Produced(cfg)|, InvalidBound(cfg))
  {
    StartIsGoing(cfg);
    RunKept(cfg, c.link, Start(), c.wakes);
    UnmarkedAreInvalid(c.Produced(cfg));
    hide Run, MadeAt, Fits, Oversized, InvalidAmong, Marks;
    MarksPastBound(cfg, c.Produced(cfg), 0);
  }

  /** The bound applied to each connection on its own. */
  function CappedEach(cfg: SenderConfig, conns: seq<Connection>): nat {
    if conns == [] then 0 else Min(|conns[0].Produced(cfg)|, InvalidBound(cfg)) + CappedEach(cfg, conns[1..])
  }

  /** The bound starts afresh with each connection: over several it is met as often as there are events for it. */
  lemma {:induction false} InvalidPerRun(cfg: SenderConfig, conns: seq<Connection>)
    ensures TotalInvalid(cfg, conns) == CappedEach(cfg, conns)
    decreases |conns|
  {
    if conns != [] {
      InvalidPerConnection(cfg, conns[0]);
      hide Connection.Produced, InvalidAmong, InvalidBound;
      InvalidPerRun(cfg, conns[1..]);
    }
  }

  lemma {:induction false} CappedEachIsBounded(cfg: SenderConfig, conns: seq<Connection>)
    ensures CappedEach(cfg, conns) <= InvalidBound(cfg) * |conns|
    decreases |conns|
  {
    if conns != [] {
      hide Connection.Produced, InvalidBound;
      CappedEachIsBounded(cfg, conns[1..]);
      OneTimeMore(InvalidBound(cfg), |conns| - 1);
    }
  }

  lemma OneTimeMore(a: nat, n: nat)
    ensures a * (n + 1) == a * n + a
  {
  }

  /** With `bound` configured, no run of up to `most` connections sends more invalid events than that. */
  ghost predicate BoundHolds(bound: nat, most: nat) {
    forall cfg: SenderConfig, conns: seq<Connection>, time: nat, period: nat ::
      InvalidBound(cfg) == bound && |conns| <= most && period > 0 && Successive(conns, 0, time, period) ==>
        TotalInvalid(cfg, conns) <= bound
  }

  /** A bound on invalid events is a bound on the whole run exactly if it is zero or there is no second connection. */
  lemma BoundHoldsExactly(bound: nat, most: nat)
    ensures BoundHolds(bound, most) <==> bound == 0 || most <= 1
  {
    if bound == 0 || most <= 1 {
      forall cfg: SenderConfig, conns: seq<Connection>, time: nat, period: nat
        | InvalidBound(cfg) == bound && |conns| <= most && period > 0 && Successive(conns, 0, time, period)
        ensures TotalInvalid(cfg, conns) <= bound
      {
        InvalidPerRun(cfg, conns);
        CappedEachIsBounded(cfg, conns);
        AtMostOnce(bound, |conns|);
      }
    } else {
      var cfg, conns := Twice(bound);
      assert InvalidBound(cfg) == bound && Successive(conns, 0, 2 * bound, 1);
    }
  }

  lemma AtMostOnce(bound: nat, n: nat)
    requires bound == 0 || n <= 1
    ensures bound * n <= bound
  {
  }

  // ---- a run over the bound ----

  /** Ticks from the `k`-th on, one period apart. */
  function Beat(start: nat, k: nat, n: nat): seq<Wake>
    requires k <= n
    decreases n - k
  {
    if k == n then [] else [Tick([], start + k + 1, [], [])] + Beat(start, k + 1, n)
  }

  lemma {:induction false} BeatIsPaced(start: nat, k: nat, n: nat)
    requires k <= n
    ensures Paced(Beat(start, k, n), k, start, start + n, 1)
    decreases n - k
  {
    if k < n {
      BeatIsPaced(start, k + 1, n);
      assert Beat(start, k, n)[1..] == Beat(start, k + 1, n);
    }
  }

  /** Malformed events, each written at once. */
  function Malformed(bound: nat): SenderConfig { SenderConfig([], 1, [], true, None, Some(bound), false, 0) }

  const SOUND := Link(None, false)

  lemma MalformedTick(bound: nat, s: Sender, w: Wake)
    requires w.Tick? && s.count < bound && s.batch == EMPTY
    ensures var (next, flow) := Step(Malformed(bound), SOUND, s, w);
      && flow == Running && next.batch == EMPTY && next.count == s.count + 1
      && |next.produced| == |s.produced| + 1
  {
    hide PositionOf;
    assert Make(Malformed(bound), s.count, w).xml == "<event";
  }

  lemma RunOn(cfg: SenderConfig, link: Link, s: Sender, wakes: seq<Wake>)
    requires wakes != [] && Step(cfg, link, s, wakes[0]).1 == Running
    ensures Run(cfg, link, s, wakes) == Run(cfg, link, Step(cfg, link, s, wakes[0]).0, wakes[1..])
  {
    hide Step;
  }

  lemma {:induction false} BeatProduces(bound: nat, s: Sender, start: nat, k: nat)
    requires k <= bound && s.count == k && s.batch == EMPTY
    ensures |Run(Malformed(bound), SOUND, s, Beat(start, k, bound)).0.produced| == |s.produced| + (bound - k)
    decreases bound - k
  {
    if k < bound {
      hide Step, Malformed, Beat, Run, EMPTY;
      var wakes := Beat(start, k, bound);
      BeatUnfolds(start, k, bound);
      MalformedTick(bound, s, wakes[0]);
      RunOn(Malformed(bound), SOUND, s, wakes);
      BeatProduces(bound, Step(Malformed(bound), SOUND, s, wakes[0]).0, start, k + 1);
    } else {
      BeatEnds(bound, s, start);
    }
  }

  lemma BeatUnfolds(start: nat, k: nat, n: nat)
    requires k < n
    ensures var wakes := Beat(start, k, n);
      wakes != [] && wakes[0].Tick? && wakes[1..] == Beat(start, k + 1, n)
  {
  }

  lemma BeatEnds(bound: nat, s: Sender, start: nat)
    ensures Run(Malformed(bound), SOUND, s, Beat(start, bound, bound)).0 == s
  {
  }

  /** Two connections in a row that each send as many invalid events as configured for all. */
  lemma Twice(bound: nat) returns (cfg: SenderConfig, conns: seq<Connection>)
    ensures InvalidBound(cfg) == bound && |conns| == 2 && Successive(conns, 0, 2 * bound, 1)
    ensures TotalInvalid(cfg, conns) == 2 * bound
  {
    cfg := Malformed(bound);
    var first := Connection(0, bound, SOUND, Beat(0, 0, bound));
    var second := Connection(bound, 2 * bound, SOUND, Beat(bound, 0, bound));
    conns := [first, second];
    TwoConnections(cfg, first, second, 1);
    BeatIsPaced(0, 0, bound);
    BeatIsPaced(bound, 0, bound);
    BeatProduces(bound, Start(), 0, 0);
    BeatProduces(bound, Start(), bound, 0);
    InvalidPerConnection(cfg, first);
    InvalidPerConnection(cfg, second);
    hide Run, Beat, Paced, InvalidAmong, Successive, TotalInvalid;
  }

  lemma TwoConnections(cfg: SenderConfig, a: Connection, b: Connection, period: nat)
    requires a.start <= a.end <= b.start <= b.end
    ensures TotalInvalid(cfg, [a, b]) == InvalidAmong(a.Produced(cfg)) + InvalidAmong(b.Produced(cfg))
    ensures Paced(a.wakes, 0, a.start, a.end, period) && Paced(b.wakes, 0, b.start, b.end, period) ==>
      Successive([a, b], 0, b.end, period)
  {
    hide InvalidAmong, Connection.Produced, Paced;
    assert [b][1..] == [] && [a, b][1..] == [b];
    assert TotalInvalid(cfg, [b]) == InvalidAmong(b.Produced(cfg)) + TotalInvalid(cfg, []);
    assert Successive([b], a.end, b.end, period) <==>
      Paced(b.wakes, 0, b.start, b.end, period) && Successive([], b.end, b.end, period);
  }
}
