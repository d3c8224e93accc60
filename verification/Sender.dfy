/**
 The send loop of one connection (src/scenarios.rs:638-776, 801-831) as a function of its wake-ups and
 of the fate of its link.  `produced` is history: every event the loop made, in order.  `flushed` is what the
 loop has entered in the shared ledger, in order; what others enter there does not touch the loop.
 */
module Sender {
  import opened Wrappers
  import opened Marker
  import opened Numbers
  import opened Outgoing
  import opened CotXml
  import Decoder

  const LIMIT: nat := 8 * 1024 * 1024

  datatype InvalidEventKind = MalformedXml | UnterminatedXml | OversizedFrame | InvalidCoordinates | InvalidTime

  datatype SenderConfig = SenderConfig(
    participant: Bytes,
    eventsPerWrite: nat,
    chunkSizes: seq<nat>,
    invalidEnabled: bool,
    invalidKind: Option<InvalidEventKind>,
    maxInvalid: Option<nat>,
    abruptEnabled: bool,
    abruptAfter: nat)

  type Correlation = (Bytes, nat)

  datatype Event = Event(xml: Bytes, correlation: Correlation, invalid: Option<InvalidEventKind>)

  /** What the loop's `select!` wakes up to; a tick brings its fresh id and the texts of its clock. */
  datatype Wake =
    | Tick(id: Bytes, at: nat, time: Bytes, stale: Bytes)
    | StopChanged(stopping: bool)
    | Deadline

  datatype Outcome = Finished | WriteFailed | BatchTooLarge

  datatype Flow = Running | Ended(outcome: Outcome)

  datatype Batch = Batch(bytes: Bytes, correlations: seq<Correlation>, events: nat)

  const EMPTY := Batch([], [], 0)

  datatype Sender = Sender(
    batch: Batch,
    count: nat,
    sent: nat,
    dropped: nat,
    localDropped: nat,
    timeouts: nat,
    wire: Bytes,
    flushed: seq<Correlation>,
    produced: seq<Event>)

  function Start(): Sender {
    Sender(EMPTY, 0, 0, 0, 0, 0, [], [], [])
  }

  function InvalidBound(cfg: SenderConfig): nat {
    if !cfg.invalidEnabled then 0
    else match cfg.maxInvalid case Some(n) => n case None => 0
  }

  function InvalidKind(cfg: SenderConfig, count: nat): Option<InvalidEventKind> {
    if count >= InvalidBound(cfg) then None
    else Some(match cfg.invalidKind case Some(kind) => kind case None => MalformedXml)
  }

  const BARE_EVENT: Bytes := "<event>"
  const BAD_POINT: Bytes := "<point lat=\"nan\"" + " lon=\"999\"/>"
  const BAD_TIME: Bytes := "<event time" + "=\"not-a-time\">"

  function Filler(): Bytes { seq(LIMIT + 1, _ => 'x') }

  function InvalidXml(kind: InvalidEventKind): (xml: Bytes)
    ensures xml != []
  {
    match kind
    case MalformedXml => "<event"
    case UnterminatedXml => "<event uid=\"invalid\">"
    case OversizedFrame => BARE_EVENT + Filler() + Decoder.END
    case InvalidCoordinates => BARE_EVENT + BAD_POINT + Decoder.END
    case InvalidTime => BAD_TIME + Decoder.END
  }

  function PositionOf(cfg: SenderConfig, w: Wake): PositionEvent
    requires w.Tick?
  {
    PositionEvent("tak-bench-" + cfg.participant, cfg.participant,
                  "-23.5505", "-46.6333", "760", "0", "0", w.time, w.stale, w.id)
  }

  function Make(cfg: SenderConfig, count: nat, w: Wake): Event
    requires w.Tick?
  {
    var invalid := InvalidKind(cfg, count);
    var xml := match invalid case Some(kind) => InvalidXml(kind) case None => PositionOf(cfg, w).ToXml();
    Event(xml, (w.id, w.at), invalid)
  }

  /** The ids of the well-formed events, with their times. */
  function Marks(events: seq<Event>): seq<Correlation> {
    if events == [] then []
    else (if events[0].invalid.None? then [events[0].correlation] else []) + Marks(events[1..])
  }

  function XmlOf(events: seq<Event>): Bytes {
    if events == [] then [] else events[0].xml + XmlOf(events[1..])
  }

  function LocalDrop(s: Sender): Sender {
    s.(dropped := s.dropped + s.batch.events, localDropped := s.localDropped + s.batch.events)
  }

  function WriteFailure(s: Sender, link: Link, events: nat): Sender {
    s.(dropped := s.dropped + events, timeouts := s.timeouts + if link.timedOut then events else 0)
  }

  function Flush(link: Link, s: Sender): (Sender, Flow) {
    if s.batch.bytes == [] then (s, Running)
    else
      var wired := s.(wire := link.Carry(s.wire, s.batch.bytes));
      if link.Breaks(s.wire, |s.batch.bytes|) then
        (WriteFailure(wired, link, s.batch.events), Ended(WriteFailed))
      else
        (wired.(sent := s.sent + s.batch.events,
                flushed := s.flushed + s.batch.correlations,
                batch := EMPTY), Running)
  }

  /** An over-sized frame: the batch goes first, then the frame on its own. */
  function SendAlone(link: Link, s: Sender, e: Event): (Sender, Flow) {
    var (flushed, flow) := Flush(link, s);
    if flow.Ended? then (flushed, flow)
    else
      var wired := flushed.(wire := link.Carry(flushed.wire, e.xml));
      if link.Breaks(flushed.wire, |e.xml|) then (WriteFailure(wired, link, 1), Ended(WriteFailed))
      else (wired.(sent := wired.sent + 1), Running)
  }

  function Append(s: Sender, e: Event): Sender {
    s.(batch := Batch(s.batch.bytes + e.xml, s.batch.correlations + Marks([e]), s.batch.events + 1))
  }

  function SendBatched(cfg: SenderConfig, link: Link, s: Sender, e: Event): (Sender, Flow) {
    var held := Append(s, e);
    if |held.batch.bytes| > LIMIT then (LocalDrop(held), Ended(BatchTooLarge))
    else if held.batch.events >= Max(1, cfg.eventsPerWrite) then Flush(link, held)
    else (held, Running)
  }

  function Made(s: Sender, e: Event): Sender {
    s.(count := s.count + 1, produced := s.produced + [e])
  }

  function Emit(cfg: SenderConfig, link: Link, s: Sender, e: Event): (Sender, Flow) {
    if e.invalid == Some(OversizedFrame) then SendAlone(link, Made(s, e), e)
    else SendBatched(cfg, link, Made(s, e), e)
  }

  function OnTick(cfg: SenderConfig, link: Link, s: Sender, w: Wake): (Sender, Flow)
    requires w.Tick?
  {
    var (next, flow) := Emit(cfg, link, s, Make(cfg, s.count, w));
    if flow.Running? && cfg.abruptEnabled && next.count >= Max(1, cfg.abruptAfter) then
      (LocalDrop(next), Ended(Finished))
    else (next, flow)
  }

  function Step(cfg: SenderConfig, link: Link, s: Sender, w: Wake): (Sender, Flow) {
    match w
    case Tick(_, _, _, _) => OnTick(cfg, link, s, w)
    case StopChanged(stopping) => if stopping then (LocalDrop(s), Ended(Finished)) else (s, Running)
    case Deadline => (LocalDrop(s), Ended(Finished))
  }

  function Run(cfg: SenderConfig, link: Link, s: Sender, wakes: seq<Wake>): (Sender, Flow)
    decreases |wakes|
  {
    if wakes == [] then (s, Running)
    else
      var (next, flow) := Step(cfg, link, s, wakes[0]);
      if flow.Ended? then (next, flow) else Run(cfg, link, next, wakes[1..])
  }
}
