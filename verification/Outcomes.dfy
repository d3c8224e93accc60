/**
 What a run of one connection's send loop (src/scenarios.rs:638-701, 778-831) comes to, told from its wake-ups, its
 configuration and its link alone: when it ends, what it has made, and where the writes fall.
 */
module Outcomes {
  import opened Wrappers
  import opened Marker
  import opened Numbers
  import opened Outgoing
  import opened CotXml
  import opened Sender
  import opened Conservation
  import CotReader

  lemma {:induction false} RunAppend(cfg: SenderConfig, link: Link, s: Sender, wakes: seq<Wake>, w: Wake)
    ensures var (last, flow) := Run(cfg, link, s, wakes);
      Run(cfg, link, s, wakes + [w]) == if flow.Ended? then (last, flow) else Step(cfg, link, last, w)
    decreases |wakes|
  {
    if wakes == [] {
      assert [w][1..] == [] && [] + [w] == [w];
    } else {
      assert (wakes + [w])[0] == wakes[0] && (wakes + [w])[1..] == wakes[1..] + [w];
      hide Step;
      RunAppend(cfg, link, Step(cfg, link, s, wakes[0]).0, wakes[1..], w);
    }
  }

  // ---- when it ends ----

  function TicksOf(wakes: seq<Wake>): seq<Wake> {
    if wakes == [] then []
    else
      var front, last := wakes[..|wakes| - 1], wakes[|wakes| - 1];
      TicksOf(front) + if last.Tick? then [last] else []
  }

  predicate Halts(w: Wake) { w == Deadline || w == StopChanged(true) }

  /** After how many events the loop breaks off, where it is to. */
  function AbruptAt(cfg: SenderConfig): nat { if cfg.abruptAfter == 0 then 1 else cfg.abruptAfter }

  /** The `i`-th wake-up tells the loop to finish: a stop, the deadline, or the tick of the last event allowed. */
  ghost predicate Calls(cfg: SenderConfig, wakes: seq<Wake>, i: nat)
    requires i < |wakes|
  {
    Halts(wakes[i]) || (cfg.abruptEnabled && wakes[i].Tick? && |TicksOf(wakes[..i + 1])| >= AbruptAt(cfg))
  }

  /** What one wake-up does to the end of the loop, `count` events in. */
  lemma StepEnds(cfg: SenderConfig, link: Link, s: Sender, w: Wake)
    requires Going(cfg, s)
    ensures var (next, flow) := Step(cfg, link, s, w);
      && |next.produced| == |s.produced| + (if w.Tick? then 1 else 0)
      && (flow == Running ==> !Halts(w) && (w.Tick? && cfg.abruptEnabled ==> |next.produced| < AbruptAt(cfg)))
      && (flow == Ended(Finished) ==>
            Halts(w) || (w.Tick? && cfg.abruptEnabled && |next.produced| >= AbruptAt(cfg)))
      && (flow.Ended? && flow != Ended(Finished) ==> w.Tick?)
  {
    if w.Tick? {
      EmitEnds(cfg, link, s, Make(cfg, s.count, w));
      hide Emit, Make;
    }
    hide MadeAt, Fits, Oversized, XmlOf, Marks;
  }

  lemma EmitEnds(cfg: SenderConfig, link: Link, s: Sender, e: Event)
    ensures var (next, flow) := Emit(cfg, link, s, e);
      next.count == s.count + 1 && |next.produced| == |s.produced| + 1 && flow != Ended(Finished)
  {
  }


  /** The loop has handled `n` wake-ups, and none but the last told it to finish. */
  ghost predicate EndsAt(cfg: SenderConfig, wakes: seq<Wake>, n: nat, result: (Sender, Flow)) {
    var (s, flow) := result;
    && n <= |wakes| && |s.produced| == |TicksOf(wakes[..n])|
    && (forall i :: 0 <= i < n - 1 ==> !Calls(cfg, wakes, i))
    && (flow == Running ==> n == |wakes| && (n > 0 ==> !Calls(cfg, wakes, n - 1)))
    && (flow.Ended? ==> n > 0)
    && (flow == Ended(Finished) ==> Calls(cfg, wakes, n - 1))
    && (flow.Ended? && flow != Ended(Finished) ==> wakes[n - 1].Tick?)
  }

  lemma CallsOfFront(cfg: SenderConfig, wakes: seq<Wake>, w: Wake, i: nat)
    requires i < |wakes|
    ensures Calls(cfg, wakes + [w], i) <==> Calls(cfg, wakes, i)
  {
    assert (wakes + [w])[..i + 1] == wakes[..i + 1];
  }

  lemma EndedStays(cfg: SenderConfig, wakes: seq<Wake>, w: Wake, n: nat, result: (Sender, Flow))
    requires EndsAt(cfg, wakes, n, result) && result.1.Ended?
    ensures EndsAt(cfg, wakes + [w], n, result)
  {
    assert (wakes + [w])[..n] == wakes[..n];
    hide Calls;
    forall i | 0 <= i < n
      ensures Calls(cfg, wakes + [w], i) <==> Calls(cfg, wakes, i)
    {
      CallsOfFront(cfg, wakes, w, i);
    }
  }

  lemma TicksOfAppend(wakes: seq<Wake>, w: Wake)
    ensures TicksOf(wakes + [w]) == TicksOf(wakes) + if w.Tick? then [w] else []
  {
    assert (wakes + [w])[..|wakes|] == wakes;
  }

  lemma FrontNeverCalls(cfg: SenderConfig, wakes: seq<Wake>, w: Wake, s: Sender)
    requires EndsAt(cfg, wakes, |wakes|, (s, Running))
    ensures forall i :: 0 <= i < |wakes| ==> !Calls(cfg, wakes + [w], i)
  {
    hide Calls;
    forall i | 0 <= i < |wakes|
      ensures !Calls(cfg, wakes + [w], i)
    {
      CallsOfFront(cfg, wakes, w, i);
    }
  }

  lemma LastCalls(cfg: SenderConfig, wakes: seq<Wake>, w: Wake)
    ensures var n := |TicksOf(wakes)| + if w.Tick? then 1 else 0;
      && |TicksOf((wakes + [w])[..|wakes| + 1])| == n
      && (Calls(cfg, wakes + [w], |wakes|) <==> Halts(w) || (cfg.abruptEnabled && w.Tick? && n >= AbruptAt(cfg)))
  {
    TicksOfAppend(wakes, w);
    hide TicksOf;
    assert (wakes + [w])[..|wakes| + 1] == wakes + [w];
  }

  lemma OneWakeMore(cfg: SenderConfig, link: Link, wakes: seq<Wake>, w: Wake, s: Sender)
    requires Going(cfg, s) && EndsAt(cfg, wakes, |wakes|, (s, Running))
    ensures EndsAt(cfg, wakes + [w], |wakes| + 1, Step(cfg, link, s, w))
  {
    StepEnds(cfg, link, s, w);
    LastCalls(cfg, wakes, w);
    FrontNeverCalls(cfg, wakes, w, s);
    assert wakes[..|wakes|] == wakes;
    hide Step, Going, TicksOf, Calls, AbruptAt, Halts;
  }

  /**
   When a run ends.  It goes on for the wake-ups before the first that tells it to finish, and returns there, unless a
   tick before, or that one, ended it by a failed write or an over-long batch.  It has made one event for each tick.
   */
  lemma {:induction false} RunEnds(cfg: SenderConfig, link: Link, wakes: seq<Wake>) returns (n: nat)
    ensures EndsAt(cfg, wakes, n, Run(cfg, link, Start(), wakes))
    decreases |wakes|
  {
    n := 0;
    if wakes != [] {
      var front, w := wakes[..|wakes| - 1], wakes[|wakes| - 1];
      assert wakes == front + [w];
      n := RunEnds(cfg, link, front);
      RunAppend(cfg, link, Start(), front, w);
      StartIsGoing(cfg);
      RunKept(cfg, link, Start(), front);
      var (s, flow) := Run(cfg, link, Start(), front);
      hide Run, Step, EndsAt, Going, Settled;
      if flow.Ended? {
        EndedStays(cfg, front, w, n, (s, flow));
      } else {
        FrontIsWhole(cfg, front, n, (s, flow));
        OneWakeMore(cfg, link, front, w, s);
        n := |wakes|;
      }
    }
  }

  lemma FrontIsWhole(cfg: SenderConfig, wakes: seq<Wake>, n: nat, result: (Sender, Flow))
    requires EndsAt(cfg, wakes, n, result) && result.1 == Running
    ensures n == |wakes|
  {
  }

  /** The loop returns well exactly if it was told to and no write and no batch ended it before. */
  lemma FinishesExactly(cfg: SenderConfig, link: Link, wakes: seq<Wake>)
    ensures var flow := Run(cfg, link, Start(), wakes).1;
      flow == Ended(Finished) <==>
        && flow != Ended(WriteFailed) && flow != Ended(BatchTooLarge)
        && exists i :: 0 <= i < |wakes| && Calls(cfg, wakes, i)
  {
    var n := RunEnds(cfg, link, wakes);
    hide Run, Calls, TicksOf;
    var flow := Run(cfg, link, Start(), wakes).1;
    if flow == Ended(Finished) {
      var i := n - 1;
      assert 0 <= i < |wakes| && Calls(cfg, wakes, i);
    } else if flow == Running {
      forall i | 0 <= i < |wakes|
        ensures !Calls(cfg, wakes, i)
      {
        assert i < n - 1 || i == n - 1;
      }
    } else {
      assert flow.outcome == WriteFailed || flow.outcome == BatchTooLarge;
    }
  }

  /** With an abrupt disconnect configured no more events are made than it allows, and it ends with the last. */
  lemma {:induction false} AbruptIsExact(cfg: SenderConfig, link: Link, wakes: seq<Wake>)
    requires cfg.abruptEnabled
    ensures var (s, flow) := Run(cfg, link, Start(), wakes);
      |s.produced| <= AbruptAt(cfg) && (flow == Running ==> |s.produced| < AbruptAt(cfg))
    decreases |wakes|
  {
    if wakes != [] {
      var front, w := wakes[..|wakes| - 1], wakes[|wakes| - 1];
      assert wakes == front + [w];
      AbruptIsExact(cfg, link, front);
      RunAppend(cfg, link, Start(), front, w);
      StartIsGoing(cfg);
      RunKept(cfg, link, Start(), front);
      var (s, flow) := Run(cfg, link, Start(), front);
      hide Run, Step, Going, Settled;
      if flow == Running {
        StepEnds(cfg, link, s, w);
      }
    }
  }

  // ---- where the writes fall ----

  /** How many of the first `n` events are over-sized ones, each written on its own. */
  function Alone(cfg: SenderConfig, n: nat): nat {
    if cfg.invalidEnabled && cfg.invalidKind == Some(OversizedFrame) && cfg.maxInvalid.Some?
    then Min(n, cfg.maxInvalid.value) else 0
  }

  /** The events to a write; never none. */
  function PerWrite(cfg: SenderConfig): nat { if cfg.eventsPerWrite == 0 then 1 else cfg.eventsPerWrite }

  /** How many of the first `n` events are not in a complete write. */
  function Remainder(cfg: SenderConfig, n: nat): nat
    requires Alone(cfg, n) <= n
  {
    (n - Alone(cfg, n)) % PerWrite(cfg)
  }

  lemma AloneIsSome(cfg: SenderConfig, n: nat)
    ensures Alone(cfg, n) <= n && Alone(cfg, n) <= Alone(cfg, n + 1) <= Alone(cfg, n) + 1
    ensures Alone(cfg, n + 1) > Alone(cfg, n) <==> InvalidKind(cfg, n) == Some(OversizedFrame)
    ensures Alone(cfg, n + 1) > Alone(cfg, n) ==> Alone(cfg, n + 1) == n + 1
  {
  }

  lemma RemainderNext(cfg: SenderConfig, n: nat)
    requires Alone(cfg, n) <= n && Alone(cfg, n + 1) <= n + 1
    ensures InvalidKind(cfg, n) == Some(OversizedFrame) ==> Remainder(cfg, n + 1) == Remainder(cfg, n) == 0
    ensures InvalidKind(cfg, n) != Some(OversizedFrame) ==>
      Remainder(cfg, n + 1) == if Remainder(cfg, n) + 1 == PerWrite(cfg) then 0 else Remainder(cfg, n) + 1
    ensures Remainder(cfg, n) < PerWrite(cfg)
  {
    AloneIsSome(cfg, n);
    NextRemainder(n - Alone(cfg, n), PerWrite(cfg));
    hide Alone, PerWrite;
  }

  lemma NextRemainder(x: nat, m: nat)
    requires m > 0
    ensures (x + 1) % m == if x % m + 1 == m then 0 else x % m + 1
  {
    var q, r := x / m, x % m;
    assert x == q * m + r;
    if r + 1 == m {
      assert x + 1 == (q + 1) * m;
      Multiple(q + 1, m, 0);
    } else {
      Multiple(q, m, r + 1);
    }
  }

  lemma Multiple(q: nat, m: nat, r: nat)
    requires r < m
    ensures (q * m + r) % m == r
  {
    var x := q * m + r;
    var d := x / m - q;
    assert d * m == (x / m) * m - q * m;
    SmallMultiple(d, m);
  }

  lemma SmallMultiple(d: int, m: int)
    requires m > 0 && -m < d * m < m
    ensures d == 0
  {
  }

  /** No write has reached the break. */
  ghost predicate Unbroken(link: Link, wire: Bytes) {
    link.breaksAt.None? || wire == [] || |wire| < link.breaksAt.value
  }

  /** The write that was due has reached it: all bytes before the break are out, and no more. */
  ghost predicate Broken(link: Link, wire: Bytes) {
    link.breaksAt.Some? && |wire| == link.breaksAt.value
  }

  /**
   Where the writes of a run fall.  Over-sized events go alone; of the others every `eventsPerWrite` are one write,
   and what is left over is in the batch, or dropped from it at the end.  A write that fails drops its own events, and
   fails exactly at the break of the link; a batch is too large only beyond eight mebibytes.
   */
  ghost predicate Batched(cfg: SenderConfig, link: Link, result: (Sender, Flow)) {
    var (s, flow) := result;
    var n := |s.produced|;
    && Alone(cfg, n) <= n
    && match flow
       case Running => s.batch.events == Remainder(cfg, n) && Unbroken(link, s.wire)
       case Ended(Finished) => s.dropped == Remainder(cfg, n) && Unbroken(link, s.wire)
       case Ended(BatchTooLarge) =>
         && n > 0 && Alone(cfg, n - 1) <= n - 1 && s.dropped == Remainder(cfg, n - 1) + 1
         && s.sent <= n && |XmlOf(s.produced[s.sent..])| > 8_388_608 && Unbroken(link, s.wire)
       case Ended(WriteFailed) =>
         && n > 0 && Remainder(cfg, n) == 0 && Broken(link, s.wire)
         && s.dropped == if Alone(cfg, n) > Alone(cfg, n - 1) then 1 else PerWrite(cfg)
  }

  lemma CarriesOn(link: Link, wire: Bytes, bytes: Bytes)
    requires Unbroken(link, wire) && bytes != []
    ensures if link.Breaks(wire, |bytes|) then Broken(link, link.Carry(wire, bytes)) else Unbroken(link, link.Carry(wire, bytes))
  {
  }

  lemma AloneFalls(cfg: SenderConfig, link: Link, s: Sender, e: Event)
    requires Going(cfg, s) && Batched(cfg, link, (s, Running)) && MadeAt(cfg, s.count, e)
    requires e.invalid == Some(OversizedFrame)
    ensures Batched(cfg, link, SendAlone(link, Made(s, e), e))
  {
    OversizeMeetsEmptyBatch(cfg, s);
    AloneIsSome(cfg, s.count);
    RemainderNext(cfg, s.count);
    CarriesOn(link, s.wire, e.xml);
    hide Remainder, Alone, PerWrite, Unbroken, Broken, Link.Carry, Link.Breaks, XmlOf, Marks, InvalidKind, Fits;
  }

  lemma BatchFalls(cfg: SenderConfig, link: Link, s: Sender, e: Event)
    requires Going(cfg, s) && Batched(cfg, link, (s, Running)) && MadeAt(cfg, s.count, e)
    requires e.invalid != Some(OversizedFrame)
    ensures Batched(cfg, link, SendBatched(cfg, link, Made(s, e), e))
  {
    AloneIsSome(cfg, s.count);
    RemainderNext(cfg, s.count);
    AppendMirrors(cfg, s, e);
    CarriesOn(link, s.wire, s.batch.bytes + e.xml);
    hide Remainder, Alone, Unbroken, Broken, Link.Carry, Link.Breaks, XmlOf, Marks, InvalidKind, Fits;
  }

  lemma TickFalls(cfg: SenderConfig, link: Link, s: Sender, w: Wake)
    requires Going(cfg, s) && Batched(cfg, link, (s, Running)) && w.Tick?
    ensures Batched(cfg, link, OnTick(cfg, link, s, w))
  {
    TickMakes(cfg, s, w);
    var e := Make(cfg, s.count, w);
    if e.invalid == Some(OversizedFrame) {
      AloneFalls(cfg, link, s, e);
    } else {
      BatchFalls(cfg, link, s, e);
    }
    EmitKept(cfg, link, s, e);
    hide Make, SendAlone, SendBatched, Remainder, Alone, PerWrite, Unbroken, Broken, XmlOf, Marks, Fits, MadeAt;
  }

  lemma StepFalls(cfg: SenderConfig, link: Link, s: Sender, w: Wake)
    requires Going(cfg, s) && Batched(cfg, link, (s, Running))
    ensures Batched(cfg, link, Step(cfg, link, s, w))
  {
    if w.Tick? {
      TickFalls(cfg, link, s, w);
    }
    hide OnTick, Remainder, Alone, PerWrite, Unbroken, Broken, XmlOf, Marks, Fits, MadeAt;
  }

  lemma StartFalls(cfg: SenderConfig, link: Link)
    ensures Batched(cfg, link, (Start(), Running))
  {
    AloneIsSome(cfg, 0);
    NothingOver(PerWrite(cfg));
  }

  lemma NothingOver(m: nat)
    requires m > 0
    ensures 0 % m == 0
  {
  }

  lemma {:induction false} WritesFall(cfg: SenderConfig, link: Link, wakes: seq<Wake>)
    ensures Batched(cfg, link, Run(cfg, link, Start(), wakes))
    decreases |wakes|
  {
    if wakes == [] {
      StartFalls(cfg, link);
      hide Batched;
    } else {
      var front, w := wakes[..|wakes| - 1], wakes[|wakes| - 1];
      assert wakes == front + [w];
      WritesFall(cfg, link, front);
      RunAppend(cfg, link, Start(), front, w);
      StartIsGoing(cfg);
      RunKept(cfg, link, Start(), front);
      var (s, flow) := Run(cfg, link, Start(), front);
      hide Run, Step, Going, Settled, Batched;
      if flow == Running {
        StepFalls(cfg, link, s, w);
      }
    }
  }

  // ---- what is made ----

  /** The text of a deliberately invalid event. */
  ghost predicate IsInvalidText(kind: InvalidEventKind, xml: Bytes) {
    match kind
    case MalformedXml => xml == "<event"
    case UnterminatedXml => xml == "<event uid=\"invalid\">"
    case OversizedFrame =>
      |xml| == 8_388_609 + 15 && xml[..7] == "<event>" && xml[8_388_616..] == "</event>"
      && forall i :: 7 <= i < 8_388_616 ==> xml[i] == 'x'
    case InvalidCoordinates => xml == "<event><point lat=\"nan\" lon=\"999\"/></event>"
    case InvalidTime => xml == "<event time=\"not-a-time\"></event>"
  }

  lemma CoordinatesText()
    ensures InvalidXml(InvalidCoordinates) == "<event><point lat=\"nan\" lon=\"999\"/></event>"
  {
    var t := InvalidXml(InvalidCoordinates);
    assert t == "<event>" + ("<point lat=\"nan\"" + " lon=\"999\"/>") + "</event>";
  }

  lemma TimeText()
    ensures InvalidXml(InvalidTime) == "<event time=\"not-a-time\"></event>"
  {
  }

  lemma FillerText()
    ensures |Filler()| == 8_388_609 && forall i :: 0 <= i < |Filler()| ==> Filler()[i] == 'x'
  {
  }

  lemma OversizedText()
    ensures IsInvalidText(OversizedFrame, InvalidXml(OversizedFrame))
  {
    FillerText();
    hide Filler;
    var filler := Filler();
    assert InvalidXml(OversizedFrame) == "<event>" + filler + "</event>";
  }

  lemma InvalidTexts(kind: InvalidEventKind)
    ensures IsInvalidText(kind, InvalidXml(kind))
  {
    match kind
    case MalformedXml | UnterminatedXml =>
    case OversizedFrame => OversizedText();
    case InvalidCoordinates => CoordinatesText();
    case InvalidTime => TimeText();
  }

  /** What the document of a tick says to a reader. */
  ghost predicate IsPosition(cfg: SenderConfig, tick: Wake, xml: Bytes)
    requires tick.Tick?
  {
    var r := CotReader.ReadEvent(xml);
    && r.uid == "tak-bench-" + cfg.participant && r.callsign == cfg.participant
    && r.latitude == "-23.5505" && r.longitude == "-46.6333" && r.altitude == "760"
    && r.course == "0" && r.speed == "0"
    && r.time == tick.time && r.stale == tick.stale && r.correlationId == tick.id
  }

  /** The texts of the clock and the id are printed without quotes and ampersands. */
  predicate Printed(tick: Wake)
    requires tick.Tick?
  {
    CotReader.Unquoted(tick.time) && CotReader.Unquoted(tick.stale) && CotReader.Unquoted(tick.id)
  }

  /** The `k`-th event is made on the `k`-th tick: with its id and time, invalid below the bound, else a position. */
  ghost predicate IsMadeOn(cfg: SenderConfig, k: nat, tick: Wake, e: Event)
    requires tick.Tick?
  {
    && e.correlation == (tick.id, tick.at)
    && (e.invalid.Some? <==> cfg.invalidEnabled && cfg.maxInvalid.Some? && k < cfg.maxInvalid.value)
    && (e.invalid.Some? ==>
          && e.invalid.value == (if cfg.invalidKind.Some? then cfg.invalidKind.value else MalformedXml)
          && IsInvalidText(e.invalid.value, e.xml))
    && (e.invalid.None? && Printed(tick) ==> IsPosition(cfg, tick, e.xml))
  }

  lemma PositionSays(cfg: SenderConfig, tick: Wake)
    requires tick.Tick? && Printed(tick)
    ensures IsPosition(cfg, tick, PositionOf(cfg, tick).ToXml())
  {
    PlaceIsUnquoted();
    CotReader.DocumentReadsBack(PositionOf(cfg, tick));
    hide PositionEvent.ToXml, CotReader.ReadEvent, CotReader.Unquoted;
  }

  lemma PlaceIsUnquoted()
    ensures CotReader.Unquoted("-23.5505") && CotReader.Unquoted("-46.6333") && CotReader.Unquoted("760")
    ensures CotReader.Unquoted("0")
  {
  }

  lemma MakeMakes(cfg: SenderConfig, k: nat, tick: Wake)
    requires tick.Tick?
    ensures IsMadeOn(cfg, k, tick, Make(cfg, k, tick))
  {
    var kind := if cfg.invalidKind.Some? then cfg.invalidKind.value else MalformedXml;
    InvalidTexts(kind);
    if Printed(tick) {
      PositionSays(cfg, tick);
    }
    hide IsInvalidText, IsPosition, InvalidXml, PositionOf, PositionEvent.ToXml, CotReader.Unquoted;
  }

  ghost predicate AllMade(cfg: SenderConfig, ticks: seq<Wake>, produced: seq<Event>) {
    && |produced| <= |ticks| && (forall k :: 0 <= k < |ticks| ==> ticks[k].Tick?)
    && forall k :: 0 <= k < |produced| ==> IsMadeOn(cfg, k, ticks[k], produced[k])
  }

  lemma StepMakes(cfg: SenderConfig, link: Link, s: Sender, w: Wake)
    ensures Step(cfg, link, s, w).0.produced == s.produced + if w.Tick? then [Make(cfg, s.count, w)] else []
  {
    hide Make, Marks;
  }

  lemma NoMoreMade(cfg: SenderConfig, ticks: seq<Wake>, produced: seq<Event>, w: Wake)
    requires AllMade(cfg, ticks, produced)
    ensures AllMade(cfg, ticks + (if w.Tick? then [w] else []), produced)
  {
    hide IsMadeOn;
  }

  lemma OneMoreMade(cfg: SenderConfig, ticks: seq<Wake>, produced: seq<Event>, w: Wake)
    requires AllMade(cfg, ticks, produced) && |produced| == |ticks| && w.Tick?
    ensures AllMade(cfg, ticks + [w], produced + [Make(cfg, |produced|, w)])
  {
    MakeMakes(cfg, |produced|, w);
    hide IsMadeOn, Make;
  }

  /** A run that goes on has made an event on each tick. */
  lemma {:induction false} RunMakes(cfg: SenderConfig, link: Link, wakes: seq<Wake>)
    ensures var (s, flow) := Run(cfg, link, Start(), wakes);
      AllMade(cfg, TicksOf(wakes), s.produced) && (flow == Running ==> |s.produced| == |TicksOf(wakes)|)
    decreases |wakes|
  {
    if wakes != [] {
      var front, w := wakes[..|wakes| - 1], wakes[|wakes| - 1];
      assert wakes == front + [w];
      RunMakes(cfg, link, front);
      RunAppend(cfg, link, Start(), front, w);
      StartIsGoing(cfg);
      RunKept(cfg, link, Start(), front);
      TicksOfAppend(front, w);
      var (s, flow) := Run(cfg, link, Start(), front);
      GoingCounts(cfg, link, s, flow);
      hide Run, Step, Going, Settled, AllMade, TicksOf, Make;
      if flow == Running {
        StepMakes(cfg, link, s, w);
        if w.Tick? {
          OneMoreMade(cfg, TicksOf(front), s.produced, w);
        } else {
          assert s.produced + [] == s.produced;
        }
      } else {
        NoMoreMade(cfg, TicksOf(front), s.produced, w);
      }
    }
  }

  lemma GoingCounts(cfg: SenderConfig, link: Link, s: Sender, flow: Flow)
    requires Accounted(cfg, link, (s, flow))
    ensures flow == Running ==> s.count == |s.produced|
  {
  }
}
