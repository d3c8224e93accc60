/** Start delays of the participants (src/scheduler.rs:17-59). */
module Scheduler {
  import opened Wrappers
  import opened Numbers

  datatype RampStrategy = Immediate | Linear | Steps | Randomized

  datatype RampStep = RampStep(at: real, clients: nat)

  datatype SchedulerConfig = SchedulerConfig(strategy: RampStrategy, rampUp: real, steps: seq<RampStep>)

  datatype SchedulerError = InvalidSteps

  /** Steps are ordered by time and by count, and never exceed the configured clients. */
  ghost predicate Ordered(steps: seq<RampStep>, clients: nat) {
    && (forall i :: 0 <= i < |steps| ==> 0.0 <= steps[i].at && steps[i].clients <= clients)
    && (forall i, j :: 0 <= i < j < |steps| ==> steps[i].at <= steps[j].at && steps[i].clients <= steps[j].clients)
  }

  /** Client `k` starts at the first step that has room for it, else at the last step, else at once. */
  ghost predicate StartsAt(steps: seq<RampStep>, k: nat, t: real) {
    || (exists i :: 0 <= i < |steps| && t == steps[i].at && k < steps[i].clients
                    && forall j :: 0 <= j < i ==> steps[j].clients <= k)
    || ((forall j :: 0 <= j < |steps| ==> steps[j].clients <= k)
        && t == if steps == [] then 0.0 else steps[|steps| - 1].at)
  }

  ghost predicate Sorted(s: seq<real>) {
    forall i, j :: 0 <= i < j < |s| ==> s[i] <= s[j]
  }

  /** The staircase of a step ramp, one step for each client, or a rejection. */
  method StepDelays(clients: nat, steps: seq<RampStep>) returns (r: Result<seq<real>, SchedulerError>)
    requires forall i :: 0 <= i < |steps| ==> 0.0 <= steps[i].at
    ensures r.Ok? <==> Ordered(steps, clients)
    ensures r.Ok? ==> |r.value| == clients && Sorted(r.value)
    ensures r.Ok? ==> forall k :: 0 <= k < clients ==> StartsAt(steps, k, r.value[k])
  {
    var previousAt, previousClients := 0.0, 0;
    var delays: seq<real> := [];
    for i := 0 to |steps|
      invariant Climbed(steps[..i], clients, previousAt, previousClients, delays)
    {
      var step := steps[i];
      assert steps[..i + 1] == steps[..i] + [step];
      if step.at < previousAt || step.clients < previousClients || step.clients > clients {
        Rejects(steps, i, clients, previousAt, previousClients, delays);
        return Err(InvalidSteps);
      }
      Climbs(steps[..i], clients, previousAt, previousClients, delays, step);
      delays := delays + Repeat(step.at, step.clients - previousClients);
      previousAt, previousClients := step.at, step.clients;
    }
    assert steps[..|steps|] == steps;
    Tops(steps, clients, previousAt, previousClients, delays);
    return Ok(delays + Repeat(previousAt, clients - previousClients));
  }

  function Repeat(t: real, n: nat): seq<real> {
    seq(n, _ => t)
  }

  /** What the loop has built after the steps in `done`. */
  ghost predicate Climbed(done: seq<RampStep>, clients: nat, at: real, count: nat, delays: seq<real>) {
    && Ordered(done, clients) && count <= clients
    && at == (if done == [] then 0.0 else done[|done| - 1].at)
    && count == (if done == [] then 0 else done[|done| - 1].clients)
    && |delays| == count && Sorted(delays)
    && (forall k :: 0 <= k < count ==> delays[k] <= at && StartsAt(done, k, delays[k]))
  }

  lemma Climbs(done: seq<RampStep>, clients: nat, at: real, count: nat, delays: seq<real>, step: RampStep)
    requires Climbed(done, clients, at, count, delays)
    requires step.at >= at && count <= step.clients <= clients && 0.0 <= step.at
    ensures Climbed(done + [step], clients, step.at, step.clients,
                    delays + Repeat(step.at, step.clients - count))
  {
    var more, all := done + [step], delays + Repeat(step.at, step.clients - count);
    MoreIsOrdered(done, clients, step);
    forall k | 0 <= k < step.clients
      ensures all[k] <= step.at && StartsAt(more, k, all[k])
    {
      if k < count {
        KeepsStart(done, step, k, delays[k]);
      } else {
        StartsHere(done, clients, step, k);
      }
    }
    hide StartsAt, Ordered;
  }

  lemma MoreIsOrdered(done: seq<RampStep>, clients: nat, step: RampStep)
    requires Ordered(done, clients) && 0.0 <= step.at && step.clients <= clients
    requires done != [] ==> done[|done| - 1].at <= step.at && done[|done| - 1].clients <= step.clients
    ensures Ordered(done + [step], clients)
  {
  }

  lemma StartsHere(done: seq<RampStep>, clients: nat, step: RampStep, k: nat)
    requires Ordered(done, clients) && k < step.clients && (done != [] ==> done[|done| - 1].clients <= k)
    ensures StartsAt(done + [step], k, step.at)
  {
    var more := done + [step];
    assert more[|done|] == step;
    assert forall j :: 0 <= j < |done| ==> more[j] == done[j];
  }

  lemma KeepsStart(done: seq<RampStep>, step: RampStep, k: nat, t: real)
    requires StartsAt(done, k, t) && done != [] && k < done[|done| - 1].clients
    ensures StartsAt(done + [step], k, t)
  {
    var i :| 0 <= i < |done| && t == done[i].at && k < done[i].clients && forall j :: 0 <= j < i ==> done[j].clients <= k;
    assert forall j :: 0 <= j < |done| ==> (done + [step])[j] == done[j];
  }

  lemma Rejects(steps: seq<RampStep>, i: nat, clients: nat, at: real, count: nat, delays: seq<real>)
    requires i < |steps| && Climbed(steps[..i], clients, at, count, delays)
    requires steps[i].at < at || steps[i].clients < count || steps[i].clients > clients
    requires 0.0 <= steps[i].at
    ensures !Ordered(steps, clients)
  {
    if i > 0 {
      assert steps[..i][i - 1] == steps[i - 1];
    }
  }

  lemma Tops(steps: seq<RampStep>, clients: nat, at: real, count: nat, delays: seq<real>)
    requires Climbed(steps, clients, at, count, delays)
    ensures var all := delays + Repeat(at, clients - count);
      Sorted(all) && forall k :: 0 <= k < clients ==> StartsAt(steps, k, all[k])
  {
    var all := delays + Repeat(at, clients - count);
    forall k | count <= k < clients
      ensures StartsAt(steps, k, all[k])
    {
      assert all[k] == at;
    }
  }

  function LinearDelay(rampUp: real, index: nat, clients: nat): real {
    rampUp * (index as real / (if clients > 1 then clients else 1) as real)
  }

  function LinearDelays(rampUp: real, clients: nat): seq<real> {
    seq(clients, i requires 0 <= i < clients => LinearDelay(rampUp, i, clients))
  }

  /** A linear ramp starts at once, climbs, and stays below its length. */
  lemma LinearClimbs(rampUp: real, i: nat, j: nat, clients: nat)
    requires i < j < clients && rampUp > 0.0
    ensures 0.0 <= LinearDelay(rampUp, i, clients) < LinearDelay(rampUp, j, clients) < rampUp
  {
    var n, x, y := clients as real, i as real / clients as real, j as real / clients as real;
    DelayIs(rampUp, i, clients);
    DelayIs(rampUp, j, clients);
    hide LinearDelay;
    SmallerQuotient(i as real, j as real, n);
    SmallerQuotient(j as real, n, n);
    QuotientIsNonNegative(i as real, n);
    WholeQuotient(n);
    Scale(rampUp, x, y);
    Scale(rampUp, y, 1.0);
    NonNegative(rampUp, x);
  }

  lemma DelayIs(rampUp: real, i: nat, clients: nat)
    requires i < clients
    ensures LinearDelay(rampUp, i, clients) == rampUp * (i as real / clients as real)
  {
  }

  lemma WholeQuotient(n: real)
    requires n > 0.0
    ensures n / n == 1.0
  {
  }

  lemma QuotientIsNonNegative(a: real, n: real)
    requires n > 0.0 && a >= 0.0
    ensures a / n >= 0.0
  {
    assert (a / n) * n == a;
    NonNegativeFactor(a / n, n);
  }

  lemma SmallerQuotient(a: real, b: real, n: real)
    requires n > 0.0 && a < b
    ensures a / n < b / n
  {
    var x, y := a / n, b / n;
    assert x * n == a && y * n == b;
    assert (y - x) * n == y * n - x * n;
    PositiveFactor(y - x, n);
  }

  lemma PositiveFactor(d: real, n: real)
    requires n > 0.0 && d * n > 0.0
    ensures d > 0.0
  {
    if d <= 0.0 {
      NonPositive(d, n);
    }
  }

  lemma NonNegativeFactor(d: real, n: real)
    requires n > 0.0 && d * n >= 0.0
    ensures d >= 0.0
  {
    if d < 0.0 {
      NegativeProduct(d, n);
    }
  }

  lemma NonPositive(d: real, n: real)
    requires n > 0.0 && d <= 0.0
    ensures d * n <= 0.0
  {
  }

  lemma NegativeProduct(d: real, n: real)
    requires n > 0.0 && d < 0.0
    ensures d * n < 0.0
  {
  }

  lemma NonNegative(a: real, x: real)
    requires a > 0.0 && x >= 0.0
    ensures a * x >= 0.0
  {
  }

  /** A shuffled ramp is some permutation of the linear one; `shuffled` is what the generator made of it. */
  ghost predicate Permutation(a: seq<real>, b: seq<real>) {
    multiset(a) == multiset(b)
  }

  /**
   Whatever the strategy, a schedule that is accepted has exactly one delay for each client, so pairing
   it with the participants leaves none out.
   */
  method StartDelays(clients: nat, cfg: SchedulerConfig, shuffled: seq<real>)
    returns (r: Result<seq<real>, SchedulerError>)
    requires forall i :: 0 <= i < |cfg.steps| ==> 0.0 <= cfg.steps[i].at
    requires Permutation(shuffled, LinearDelays(cfg.rampUp, clients))
    ensures r.Err? <==> cfg.strategy == Steps && !Ordered(cfg.steps, clients)
    ensures r.Ok? ==> |r.value| == clients
    ensures r.Ok? && cfg.strategy == Immediate ==> forall k :: 0 <= k < clients ==> r.value[k] == 0.0
    ensures r.Ok? && cfg.strategy == Linear ==>
      forall k :: 0 <= k < clients ==> r.value[k] == cfg.rampUp * (k as real / clients as real)
    ensures r.Ok? && cfg.strategy == Steps ==>
      Sorted(r.value) && forall k :: 0 <= k < clients ==> StartsAt(cfg.steps, k, r.value[k])
    ensures r.Ok? && cfg.strategy == Randomized ==>
      Permutation(r.value, LinearDelays(cfg.rampUp, clients))
  {
    match cfg.strategy
    case Immediate => r := Ok(Repeat(0.0, clients));
    case Linear =>
      r := Ok(LinearDelays(cfg.rampUp, clients));
      forall k | 0 <= k < clients
        ensures r.value[k] == cfg.rampUp * (k as real / clients as real)
      {
        DelayIs(cfg.rampUp, k, clients);
      }
    case Steps => r := StepDelays(clients, cfg.steps);
    case Randomized =>
      SameLength(shuffled, LinearDelays(cfg.rampUp, clients));
      r := Ok(shuffled);
  }

  lemma SameLength(a: seq<real>, b: seq<real>)
    requires Permutation(a, b)
    ensures |a| == |b|
  {
    assert |multiset(a)| == |multiset(b)|;
  }
}
