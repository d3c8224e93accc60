/**
 The workload limits checked before anything is dialled (src/safety.rs:74-329).  Durations are in
 nanoseconds; parsing the host out of the server address is not part of this model.
 */
module Safety {
  import opened Wrappers
  import opened Marker
  import opened Credentials
  import opened Cadence
  import Sender
  import Participants
  import Ledger
  import Backoff
  import Numbers
  import Thresholds

  datatype Environment = Local | Staging | Temporary | Production

  datatype Profile = Smoke | Functional | Load | Stress | Spike | Soak | Reconnect

  datatype ScenarioKind = Position | Marker | Chat

  datatype Movement = Fixed | RandomWalk | Line | Circle | Route | GeojsonRoute

  datatype ParticipantConfig = ParticipantConfig(
    id: Bytes, role: Participants.Role, readDelay: Option<nat>, pauseReadFor: Option<nat>)

  /** A rate as configured, which may be infinite or not a number. */
  datatype Rate = Finite(value: real) | NotFinite

  /** `u32` */
  type Count = n: nat | n <= Numbers.U32_MAX

  datatype RunConfig = RunConfig(
    profile: Profile, clients: Count, maxClients: Count, duration: nat, gpsInterval: nat, maxRate: Option<Rate>)

  datatype TimeoutConfig = TimeoutConfig(connect: nat, tlsHandshake: nat, read: nat, write: nat)

  datatype ReconnectConfig = ReconnectConfig(enabled: bool, backoff: Backoff.ReconnectConfig, maxAttempts: nat)

  datatype ScenarioConfig = ScenarioConfig(
    kind: ScenarioKind, movement: Movement, routing: seq<Ledger.RoutingAssertion>,
    chunkSizes: seq<nat>, eventsPerWrite: nat,
    invalidEnabled: bool, invalidKind: Option<Sender.InvalidEventKind>, maxInvalid: Option<nat>,
    slowConnect: bool, abruptEnabled: bool, abruptAfter: nat)

  datatype AppConfig = AppConfig(
    acknowledged: bool, environment: Environment, allowHosts: seq<Bytes>, host: Bytes,
    tls: TlsConfig, tlsEnabled: bool, run: RunConfig, rampDown: nat, reconnect: ReconnectConfig,
    timeouts: TimeoutConfig, participants: seq<ParticipantConfig>,
    waitForReady: seq<Bytes>, readyTimeout: Option<nat>, scenario: ScenarioConfig,
    abort: Thresholds.AbortConfig)

  datatype SafetyError =
    | AuthorizationRequired
    | HostNotAllowed
    | ParticipantCountMismatch
    | NoParticipants
    | ClientLimit
    | InvalidParticipantId
    | InvalidRoutingAssertion
    | InvalidSynchronization
    | InvalidBounds
    | UnsupportedWorkload
    | UnsupportedOption
    | InvalidTlsTemplates
    | EnvironmentProfileNotAllowed
    | ProductionProfile(profile: Profile)
    | ProductionClients
    | ProductionDuration
    | ProductionRate
    | SlowClientNotAllowed
    | InvalidEventLimit
    | ProductionNotAllowed
    | InvalidEventsNotAllowed

  /** The order in which violations are reported. */
  function Rank(e: SafetyError): nat {
    match e
    case AuthorizationRequired => 0
    case HostNotAllowed => 1
    case ParticipantCountMismatch => 2
    case NoParticipants => 3
    case ClientLimit => 4
    case InvalidParticipantId => 5
    case InvalidRoutingAssertion => 6
    case InvalidSynchronization => 7
    case InvalidBounds => 8
    case UnsupportedWorkload => 9
    case UnsupportedOption => 10
    case InvalidTlsTemplates => 11
    case EnvironmentProfileNotAllowed => 12
    case ProductionProfile(_) => 13
    case ProductionClients => 14
    case ProductionDuration => 15
    case ProductionRate => 16
    case SlowClientNotAllowed => 17
    case InvalidEventLimit => 18
    case ProductionNotAllowed => 19
    case InvalidEventsNotAllowed => 20
  }

  // ---- the rules, each on its own ----

  function Ids(ps: seq<ParticipantConfig>): seq<Bytes> {
    seq(|ps|, i requires 0 <= i < |ps| => ps[i].id)
  }

  /** Everyone's name, listed or generated. */
  function NamesOf(c: AppConfig): seq<Bytes> {
    Names(Ids(c.participants), c.run.clients)
  }

  ghost predicate IdsAreSound(ps: seq<ParticipantConfig>) {
    Distinct(Ids(ps)) && forall p :: p in ps ==> IsSafe(p.id)
  }

  /** A listed participant goes by `id`, and is not confined to `other`. */
  ghost predicate HasOtherRole(ps: seq<ParticipantConfig>, id: Bytes, other: Participants.Role) {
    exists p :: p in ps && p.id == id && p.role != other
  }

  ghost predicate AssertionIsSound(ps: seq<ParticipantConfig>, a: Ledger.RoutingAssertion) {
    && HasOtherRole(ps, a.sender, Participants.ReceiveOnly)
    && (a.receivers != [] || a.forbiddenReceivers != [])
    && (forall id :: id in a.receivers || id in a.forbiddenReceivers ==>
          HasOtherRole(ps, id, Participants.SendOnly))
  }

  ghost predicate SynchronizationIsSound(c: AppConfig) {
    if c.waitForReady == [] then c.readyTimeout.None?
    else c.readyTimeout.Some? && Distinct(c.waitForReady) && forall id :: id in c.waitForReady ==> id in Ids(c.participants)
  }

  /** Seconds, as a double: 2^64, the nearest to the longest duration. */
  const LONGEST: real := 18_446_744_073_709_551_616.0

  predicate RateIsSound(rate: Rate) {
    rate.Finite? && rate.value > 0.0 && 1.0 / rate.value <= LONGEST
  }

  predicate BoundsAreSound(c: AppConfig) {
    && c.run.duration > 0 && c.run.gpsInterval > 0
    && c.timeouts.connect > 0 && c.timeouts.tlsHandshake > 0 && c.timeouts.read > 0 && c.timeouts.write > 0
    && c.readyTimeout != Some(0)
    && (c.run.maxRate.Some? ==> RateIsSound(c.run.maxRate.value))
    && (c.reconnect.enabled ==> 0 < c.reconnect.backoff.minBackoff <= c.reconnect.backoff.maxBackoff)
  }

  predicate FasterThan(maxRate: Option<Rate>, perSecond: real) {
    maxRate.Some? && maxRate.value.Finite? && maxRate.value.value > perSecond
  }

  predicate Disruptive(c: AppConfig) {
    c.scenario.slowConnect || c.scenario.abruptEnabled
    || exists p :: p in c.participants && (p.readDelay.Some? || p.pauseReadFor.Some?)
  }

  predicate Disposable(environment: Environment) { environment.Local? || environment.Temporary? }

  predicate Bounded(c: AppConfig) {
    c.scenario.maxInvalid.Some? && c.scenario.maxInvalid.value > 0
  }

  /** One over the rate is a finite number of seconds, no more than a duration holds. */
  ghost predicate HasInterval(rate: Rate) {
    rate.Finite? && rate.value > 0.0 && 1.0 <= rate.value * 18_446_744_073_709_551_616.0
  }

  /** More than `events` in so many seconds. */
  ghost predicate Exceeds(maxRate: Option<Rate>, events: nat, seconds: nat) {
    exists r :: maxRate == Some(Finite(r)) && r * seconds as real > events as real
  }

  /** A participant is to be slow or to break off. */
  ghost predicate Interferes(c: AppConfig) {
    || c.scenario.slowConnect || c.scenario.abruptEnabled
    || exists i :: 0 <= i < |c.participants|
                   && !(c.participants[i].readDelay.None? && c.participants[i].pauseReadFor.None?)
  }

  /** `c` breaks the rule that `e` reports; each rule in numbers of its own, beside the checks further down. */
  ghost predicate Breaks(c: AppConfig, e: SafetyError) {
    match e
    case ParticipantCountMismatch =>
      c.participants != [] && |c.participants| <= Numbers.U32_MAX && |c.participants| != c.run.clients
    case NoParticipants => c.participants == [] && c.run.clients == 0
    case ClientLimit =>
      |c.participants| > Numbers.U32_MAX
      || (if c.participants == [] then c.run.clients else |c.participants|) > c.run.maxClients
    case InvalidParticipantId => !IdsAreSound(c.participants)
    case InvalidRoutingAssertion => exists a :: a in c.scenario.routing && !AssertionIsSound(c.participants, a)
    case InvalidSynchronization => !SynchronizationIsSound(c)
    case InvalidBounds =>
      || c.run.duration == 0 || c.run.gpsInterval == 0
      || c.timeouts.connect == 0 || c.timeouts.tlsHandshake == 0 || c.timeouts.read == 0 || c.timeouts.write == 0
      || c.readyTimeout == Some(0)
      || (c.run.maxRate.Some? && !HasInterval(c.run.maxRate.value))
      || (c.reconnect.enabled
          && (c.reconnect.backoff.minBackoff == 0 || c.reconnect.backoff.maxBackoff < c.reconnect.backoff.minBackoff))
    case UnsupportedWorkload => !c.scenario.kind.Position? || !c.scenario.movement.Fixed?
    case UnsupportedOption => c.rampDown > 0
    case InvalidTlsTemplates => exists id :: id in NamesOf(c) && ForParticipant(c.tls, id).Err?
    case EnvironmentProfileNotAllowed =>
      || (c.environment !in {Local, Temporary} && c.run.profile in {Stress, Spike, Soak})
      || (c.environment == Staging && Interferes(c))
    case ProductionProfile(p) => c.environment.Production? && !c.run.profile.Smoke? && p == c.run.profile
    case ProductionClients =>
      c.environment.Production?
      && ((if c.participants == [] then c.run.clients else |c.participants|) > 3 || c.run.maxClients > 3)
    case ProductionDuration => c.environment.Production? && c.run.duration > 900_000_000_000
    case ProductionRate =>
      c.environment.Production? && (c.run.gpsInterval < 30_000_000_000 || Exceeds(c.run.maxRate, 1, 10))
    case SlowClientNotAllowed => c.environment.Production? && Interferes(c)
    case InvalidEventLimit =>
      c.scenario.invalidEnabled
      && (c.scenario.maxInvalid == None || c.scenario.maxInvalid == Some(0)
          || Exceeds(c.run.maxRate, 1, 1) || c.run.gpsInterval < 1_000_000_000)
    case _ => false
  }

  ghost predicate Accepted(c: AppConfig) {
    forall e :: !Breaks(c, e)
  }

  // ---- the scans ----

  function FindById(ps: seq<ParticipantConfig>, id: Bytes): (r: Option<ParticipantConfig>)
    ensures r.Some? ==> r.value in ps && r.value.id == id
    ensures r.None? ==> forall p :: p in ps ==> p.id != id
  {
    if ps == [] then None else if ps[0].id == id then Some(ps[0]) else FindById(ps[1..], id)
  }

  /** Ids tell participants apart, so the first that goes by an id is the only one. */
  lemma IdIsUnique(ps: seq<ParticipantConfig>, p: ParticipantConfig, q: ParticipantConfig)
    requires Distinct(Ids(ps)) && p in ps && q in ps && p.id == q.id
    ensures p == q
  {
    var i :| 0 <= i < |ps| && ps[i] == p;
    var j :| 0 <= j < |ps| && ps[j] == q;
    assert Ids(ps)[i] == Ids(ps)[j];
  }

  predicate FirstHasOtherRole(ps: seq<ParticipantConfig>, id: Bytes, other: Participants.Role) {
    var found := FindById(ps, id);
    found.Some? && found.value.role != other
  }

  lemma FirstIsOnly(ps: seq<ParticipantConfig>, id: Bytes, other: Participants.Role)
    requires Distinct(Ids(ps))
    ensures FirstHasOtherRole(ps, id, other) <==> HasOtherRole(ps, id, other)
  {
    hide Distinct, Ids;
    if p :| p in ps && p.id == id && p.role != other {
      IdIsUnique(ps, p, FindById(ps, id).value);
    }
  }

  predicate AssertionFails(ps: seq<ParticipantConfig>, a: Ledger.RoutingAssertion) {
    || !FirstHasOtherRole(ps, a.sender, Participants.ReceiveOnly)
    || (a.receivers == [] && a.forbiddenReceivers == [])
    || exists id :: id in a.receivers + a.forbiddenReceivers && !FirstHasOtherRole(ps, id, Participants.SendOnly)
  }

  lemma FailsUnlessSound(ps: seq<ParticipantConfig>, a: Ledger.RoutingAssertion)
    requires Distinct(Ids(ps))
    ensures AssertionFails(ps, a) <==> !AssertionIsSound(ps, a)
  {
    hide FirstHasOtherRole, HasOtherRole, Distinct, Ids;
    FirstIsOnly(ps, a.sender, Participants.ReceiveOnly);
    forall id
      ensures FirstHasOtherRole(ps, id, Participants.SendOnly) <==> HasOtherRole(ps, id, Participants.SendOnly)
    {
      FirstIsOnly(ps, id, Participants.SendOnly);
    }
    assert forall id :: id in a.receivers + a.forbiddenReceivers <==> id in a.receivers || id in a.forbiddenReceivers;
  }

  /** The set holds the names scanned so far, none of them twice. */
  ghost predicate Scanned(names: seq<Bytes>, i: nat, found: set<Bytes>) {
    && i <= |names| && Distinct(names[..i])
    && forall id :: id in found <==> id in names[..i]
  }

  lemma ScansOn(names: seq<Bytes>, i: nat, found: set<Bytes>)
    requires Scanned(names, i, found) && i < |names|
    ensures names[i] in found ==> !Distinct(names)
    ensures names[i] !in found ==> Scanned(names, i + 1, found + {names[i]})
  {
    assert names[..i + 1] == names[..i] + [names[i]];
    if names[i] in found {
      var j :| 0 <= j < i && names[..i][j] == names[i];
      assert names[j] == names[i];
    }
  }

  /** The scan of the ids with a hash set, then the routing assertions. */
  method ValidateParticipantsAndRouting(c: AppConfig) returns (r: Option<SafetyError>)
    ensures r == if Breaks(c, InvalidParticipantId) then Some(InvalidParticipantId)
                 else if Breaks(c, InvalidRoutingAssertion) then Some(InvalidRoutingAssertion)
                 else None
  {
    var ps := c.participants;
    if ps == [] {
      if c.scenario.routing != [] {
        assert !AssertionIsSound(ps, c.scenario.routing[0]);
        return Some(InvalidRoutingAssertion);
      }
      return None;
    }
    ghost var names := Ids(ps);
    var i, ids := 0, {};
    hide Distinct, IsSafe;
    EmptyIsScanned(names);
    while i < |ps|
      invariant 0 <= i <= |ps| && Scanned(names, i, ids)
      invariant forall j :: 0 <= j < i ==> IsSafe(ps[j].id)
    {
      ScansOn(names, i, ids);
      if !IsSafe(ps[i].id) || ps[i].id in ids {
        return Some(InvalidParticipantId);
      }
      ids := ids + {ps[i].id};
      i := i + 1;
    }
    assert names[..|ps|] == names;
    r := ValidateRouting(ps, c.scenario.routing);
  }

  lemma EmptyIsScanned(names: seq<Bytes>)
    ensures Scanned(names, 0, {})
  {
  }

  method ValidateRouting(ps: seq<ParticipantConfig>, routing: seq<Ledger.RoutingAssertion>) returns (r: Option<SafetyError>)
    requires Distinct(Ids(ps))
    ensures r == if exists a :: a in routing && !AssertionIsSound(ps, a) then Some(InvalidRoutingAssertion) else None
  {
    var i := 0;
    hide AssertionIsSound, AssertionFails, Distinct, Ids;
    while i < |routing|
      invariant 0 <= i <= |routing|
      invariant forall j :: 0 <= j < i ==> AssertionIsSound(ps, routing[j])
    {
      FailsUnlessSound(ps, routing[i]);
      if AssertionFails(ps, routing[i]) {
        return Some(InvalidRoutingAssertion);
      }
      i := i + 1;
    }
    return None;
  }

  /** The scan of the readiness aliases with a hash set. */
  method ValidateSynchronization(c: AppConfig) returns (r: Option<SafetyError>)
    ensures r == if Breaks(c, InvalidSynchronization) then Some(InvalidSynchronization) else None
  {
    var names := c.waitForReady;
    if names == [] {
      return if c.readyTimeout.None? then None else Some(InvalidSynchronization);
    }
    if c.participants == [] || c.readyTimeout.None? {
      assert names[0] in names && (c.participants == [] ==> names[0] !in Ids(c.participants));
      return Some(InvalidSynchronization);
    }
    var i, required := 0, {};
    hide Distinct;
    EmptyIsScanned(names);
    while i < |names|
      invariant 0 <= i <= |names| && Scanned(names, i, required)
      invariant forall j :: 0 <= j < i ==> names[j] in Ids(c.participants)
    {
      ScansOn(names, i, required);
      if names[i] in required || names[i] !in Ids(c.participants) {
        assert names[i] in names;
        return Some(InvalidSynchronization);
      }
      required := required + {names[i]};
      i := i + 1;
    }
    assert names[..|names|] == names;
    return None;
  }

  // ---- the chain ----

  /** Of the rules ranked from `lo` to `hi`, `r` reports the first that is broken. */
  ghost predicate Reports(c: AppConfig, lo: nat, hi: nat, r: Option<SafetyError>) {
    && (r.Some? ==> Breaks(c, r.value) && lo <= Rank(r.value) < hi)
    && forall e :: Breaks(c, e) && lo <= Rank(e) < hi ==> r.Some? && Rank(r.value) <= Rank(e)
  }

  function First(a: Option<SafetyError>, b: Option<SafetyError>): Option<SafetyError> {
    if a.Some? then a else b
  }

  lemma ReportsChain(c: AppConfig, lo: nat, mid: nat, hi: nat, a: Option<SafetyError>, b: Option<SafetyError>)
    requires lo <= mid <= hi && Reports(c, lo, mid, a) && Reports(c, mid, hi, b)
    ensures Reports(c, lo, hi, First(a, b))
  {
    hide Breaks, Rank;
  }

  function CheckPopulation(c: AppConfig): Option<SafetyError> {
    var listed := |c.participants|;
    if c.participants != [] && listed > Numbers.U32_MAX then Some(ClientLimit)
    else if c.participants != [] && listed != c.run.clients then Some(ParticipantCountMismatch)
    else if c.run.clients == 0 then Some(NoParticipants)
    else if c.run.clients > c.run.maxClients then Some(ClientLimit)
    else None
  }

  function CheckWorkload(c: AppConfig): Option<SafetyError> {
    if !BoundsAreSound(c) then Some(InvalidBounds)
    else if !c.scenario.kind.Position? || !c.scenario.movement.Fixed? then Some(UnsupportedWorkload)
    else if c.rampDown > 0 then Some(UnsupportedOption)
    else if exists id :: id in NamesOf(c) && ForParticipant(c.tls, id).Err? then Some(InvalidTlsTemplates)
    else None
  }

  function CheckEnvironment(c: AppConfig): Option<SafetyError> {
    var disruptive := Disruptive(c);
    if (!Disposable(c.environment) && c.run.profile in {Stress, Spike, Soak})
       || (c.environment.Staging? && disruptive) then Some(EnvironmentProfileNotAllowed)
    else if c.environment.Production? then CheckProduction(c)
    else None
  }

  function CheckProduction(c: AppConfig): Option<SafetyError> {
    var count := if c.participants == [] then c.run.clients else |c.participants|;
    if !c.run.profile.Smoke? then Some(ProductionProfile(c.run.profile))
    else if count > 3 || c.run.maxClients > 3 then Some(ProductionClients)
    else if c.run.duration > 15 * 60 * SECOND then Some(ProductionDuration)
    else if c.run.gpsInterval < 30 * SECOND || FasterThan(c.run.maxRate, 0.1) then Some(ProductionRate)
    else if Disruptive(c) then Some(SlowClientNotAllowed)
    else None
  }

  function CheckInvalid(c: AppConfig): Option<SafetyError> {
    if c.scenario.invalidEnabled
       && (!Bounded(c) || FasterThan(c.run.maxRate, 1.0) || c.run.gpsInterval < SECOND) then Some(InvalidEventLimit)
    else None
  }

  lemma BoundsReported(c: AppConfig)
    ensures BoundsAreSound(c) <==> !Breaks(c, InvalidBounds)
  {
    if c.run.maxRate.Some? {
      RateReported(c.run.maxRate.value);
    }
    hide RateIsSound, HasInterval;
  }

  lemma RateReported(rate: Rate)
    ensures RateIsSound(rate) <==> HasInterval(rate)
  {
    if rate.Finite? && rate.value > 0.0 {
      Thresholds.Exceeds(1.0, rate.value, LONGEST);
    }
  }

  lemma SpeedReported(maxRate: Option<Rate>)
    ensures FasterThan(maxRate, 0.1) <==> Exceeds(maxRate, 1, 10)
    ensures FasterThan(maxRate, 1.0) <==> Exceeds(maxRate, 1, 1)
  {
    if maxRate.Some? && maxRate.value.Finite? {
      var r := maxRate.value.value;
      assert maxRate == Some(Finite(r));
    }
  }

  lemma DisruptionReported(c: AppConfig)
    ensures Disruptive(c) <==> Interferes(c)
  {
  }

  lemma PopulationReports(c: AppConfig)
    ensures Reports(c, 2, 5, CheckPopulation(c))
  {
    hide IdsAreSound, AssertionIsSound, SynchronizationIsSound, HasInterval, Interferes, Exceeds, NamesOf;
  }

  lemma ScansReport(c: AppConfig, a: Option<SafetyError>, b: Option<SafetyError>)
    requires a == if Breaks(c, InvalidParticipantId) then Some(InvalidParticipantId)
                  else if Breaks(c, InvalidRoutingAssertion) then Some(InvalidRoutingAssertion)
                  else None
    requires b == if Breaks(c, InvalidSynchronization) then Some(InvalidSynchronization) else None
    ensures Reports(c, 5, 8, First(a, b))
  {
    hide Breaks;
  }

  lemma WorkloadReports(c: AppConfig)
    ensures Reports(c, 8, 12, CheckWorkload(c))
  {
    BoundsReported(c);
    hide BoundsAreSound;
    hide IdsAreSound, AssertionIsSound, SynchronizationIsSound, HasInterval, Interferes, Exceeds, NamesOf;
  }

  lemma EnvironmentReports(c: AppConfig)
    ensures Reports(c, 12, 18, CheckEnvironment(c))
  {
    SpeedReported(c.run.maxRate);
    DisruptionReported(c);
    hide Disruptive, FasterThan;
    hide IdsAreSound, AssertionIsSound, SynchronizationIsSound, HasInterval, Interferes, Exceeds, NamesOf;
  }

  lemma InvalidReports(c: AppConfig)
    ensures Reports(c, 18, 19, CheckInvalid(c))
  {
    SpeedReported(c.run.maxRate);
    hide Disruptive, FasterThan;
    hide IdsAreSound, AssertionIsSound, SynchronizationIsSound, HasInterval, Interferes, Exceeds, NamesOf;
  }

  lemma AllRanked(c: AppConfig, e: SafetyError)
    ensures Breaks(c, e) ==> 2 <= Rank(e) < 19
  {
    hide IdsAreSound, AssertionIsSound, SynchronizationIsSound, HasInterval, Interferes, Exceeds, NamesOf;
  }

  /** A workload passes exactly when it breaks no rule; otherwise the first broken rule is reported. */
  method ValidateWorkload(c: AppConfig) returns (r: Option<SafetyError>)
    ensures r.None? <==> Accepted(c)
    ensures r.Some? ==> Breaks(c, r.value) && forall e :: Breaks(c, e) ==> Rank(r.value) <= Rank(e)
  {
    hide Breaks, Rank, CheckPopulation, CheckWorkload, CheckEnvironment, CheckInvalid;
    PopulationReports(c);
    WorkloadReports(c);
    EnvironmentReports(c);
    InvalidReports(c);
    var ids := ValidateParticipantsAndRouting(c);
    var ready := ValidateSynchronization(c);
    ScansReport(c, ids, ready);
    hide First;
    var population := First(CheckPopulation(c), First(ids, ready));
    ReportsChain(c, 2, 5, 8, CheckPopulation(c), First(ids, ready));
    var workload := First(population, CheckWorkload(c));
    ReportsChain(c, 2, 8, 12, population, CheckWorkload(c));
    var environment := First(workload, CheckEnvironment(c));
    ReportsChain(c, 2, 12, 18, workload, CheckEnvironment(c));
    r := First(environment, CheckInvalid(c));
    ReportsChain(c, 2, 18, 19, environment, CheckInvalid(c));
    forall e
      ensures Breaks(c, e) ==> 2 <= Rank(e) < 19
    {
      AllRanked(c, e);
    }
  }

  datatype SafetyOptions = SafetyOptions(allowProduction: bool, allowInvalidEvents: bool)

  predicate MaySendInvalid(c: AppConfig, o: SafetyOptions) {
    Disposable(c.environment) || (c.environment.Staging? && o.allowInvalidEvents)
  }

  /** The whole policy's rules; `isLoopback` is the foreign address check. */
  ghost predicate Forbids(c: AppConfig, o: SafetyOptions, isLoopback: Bytes -> bool, e: SafetyError) {
    match e
    case AuthorizationRequired => !c.acknowledged
    case HostNotAllowed => c.host !in c.allowHosts && !(c.environment.Local? && isLoopback(c.host))
    case ProductionNotAllowed => c.environment.Production? && !o.allowProduction
    case InvalidEventsNotAllowed =>
      c.scenario.invalidEnabled && c.environment !in {Local, Temporary} && !(c.environment == Staging && o.allowInvalidEvents)
    case _ => Breaks(c, e)
  }

  ghost predicate Permitted(c: AppConfig, o: SafetyOptions, isLoopback: Bytes -> bool) {
    forall e :: !Forbids(c, o, isLoopback, e)
  }

  /** Between the host and the environment come the workload's rules. */
  lemma WorkloadIsInside(c: AppConfig, o: SafetyOptions, isLoopback: Bytes -> bool, e: SafetyError)
    ensures Forbids(c, o, isLoopback, e) <==>
      || (e.AuthorizationRequired? && !c.acknowledged)
      || (e.HostNotAllowed? && c.host !in c.allowHosts && !(c.environment.Local? && isLoopback(c.host)))
      || Breaks(c, e)
      || (e.ProductionNotAllowed? && c.environment.Production? && !o.allowProduction)
      || (e.InvalidEventsNotAllowed? && c.scenario.invalidEnabled && !MaySendInvalid(c, o))
    ensures Breaks(c, e) ==> 2 <= Rank(e) < 19
  {
    AllRanked(c, e);
    hide IdsAreSound, AssertionIsSound, SynchronizationIsSound, HasInterval, Interferes, Exceeds, NamesOf;
  }

  /** A run is let through exactly when nothing forbids it; otherwise the first reason is reported. */
  method ValidateWithOptions(c: AppConfig, o: SafetyOptions, isLoopback: Bytes -> bool) returns (r: Option<SafetyError>)
    ensures r.None? <==> Permitted(c, o, isLoopback)
    ensures r.Some? ==> Forbids(c, o, isLoopback, r.value)
    ensures r.Some? ==> forall e :: Forbids(c, o, isLoopback, e) ==> Rank(r.value) <= Rank(e)
  {
    hide Breaks, Forbids, MaySendInvalid;
    forall e: SafetyError {
      WorkloadIsInside(c, o, isLoopback, e);
    }
    if !c.acknowledged {
      assert Forbids(c, o, isLoopback, AuthorizationRequired);
      return Some(AuthorizationRequired);
    }
    var localLoopback := c.environment.Local? && isLoopback(c.host);
    if !localLoopback && c.host !in c.allowHosts {
      assert Forbids(c, o, isLoopback, HostNotAllowed);
      return Some(HostNotAllowed);
    }
    r := ValidateWorkload(c);
    if r.Some? {
      return;
    }
    if c.environment.Production? && !o.allowProduction {
      assert Forbids(c, o, isLoopback, ProductionNotAllowed);
      return Some(ProductionNotAllowed);
    }
    if c.scenario.invalidEnabled && !MaySendInvalid(c, o) {
      assert Forbids(c, o, isLoopback, InvalidEventsNotAllowed);
      return Some(InvalidEventsNotAllowed);
    }
  }
}
