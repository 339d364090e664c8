/**
 Smart tune: every GPU is put at its ceiling, then a few watts are tried downwards and the
 best-scoring limit is kept; any failure puts the original limits back.

 Which commands fail, what the miner and the GPUs report at any moment, and cancellation are
 given by an arbitrary host. Every command and every look at a GPU is an event in a log, and
 its position there is the moment at which it happened.
 */
module SmartTune {
  import opened Wrappers

  const STEP := 5
  const RANGE := 10
  const SAMPLES := 3

  datatype PowerRange = PowerRange(index: int, current: int, minimum: int, maximum: int)

  datatype Measurement = Measurement(hashrate: real, power: real, temperature: real)

  /** What is seen of one GPU at one moment. */
  datatype Report = Report(running: bool, found: bool, seen: Measurement)

  /**
   The limits at the start, which commands fail, when the run is cancelled, and what is reported of
   each GPU at each moment.
   */
  datatype Host = Host(initial: map<int, int>, faults: nat -> bool, cancelled: nat -> bool,
      reports: (nat, int) -> Report)

  datatype Event = Command(index: int, watts: int) | Look(index: int)

  /** One limit that was tried, when, and what was measured under it. */
  datatype Test = Test(limit: int, at: nat, measured: Measurement)

  function Min(a: int, b: int): int { if a < b then a else b }
  function Max(a: int, b: int): int { if a > b then a else b }

  /** smartTunePowerCeiling */
  function Ceiling(gpu: PowerRange, requested: int): int {
    if requested == 0 then gpu.maximum else Min(gpu.maximum, requested)
  }

  /** The controller's limit, where there is one, caps the request. */
  function Requested(asked: int, maxPowerW: int): int {
    if maxPowerW > 0 && (asked == 0 || asked > maxPowerW) then maxPowerW else asked
  }

  /** What a GPU is put back to: its limit before, within the controller's. */
  function Original(gpu: PowerRange, maxPowerW: int): int {
    if maxPowerW > 0 then Min(gpu.current, maxPowerW) else gpu.current
  }

  /** balancedTuneScore */
  function Score(m: Measurement, baseline: Measurement): real {
    if baseline.hashrate <= 0.0 || baseline.power <= 0.0 || m.hashrate < baseline.hashrate * 0.97
        || m.power <= 0.0 then 0.0
    else (m.hashrate / baseline.hashrate) * 0.6 + ((m.hashrate / m.power) / (baseline.hashrate / baseline.power)) * 0.4
  }

  function Lowest(gpu: PowerRange, start: int): int {
    Max(gpu.minimum, start - RANGE)
  }

  /** The tests run downwards from the ceiling in equal steps, through every limit of the range. */
  ghost predicate Swept(gpu: PowerRange, start: int, tests: seq<Test>) {
    && |tests| > 0
    && (forall j :: 0 <= j < |tests| ==>
        tests[j].limit == start - j * STEP && (j > 0 ==> tests[j].limit >= Lowest(gpu, start)))
    && start - |tests| * STEP < Lowest(gpu, start)
  }

  /** The k-th test scored best, and every earlier one worse. */
  ghost predicate Best(tests: seq<Test>, k: nat) {
    && k < |tests|
    && (forall j :: 0 <= j < |tests| ==>
        Score(tests[j].measured, tests[0].measured) <= Score(tests[k].measured, tests[0].measured))
    && (forall j :: 0 <= j < k ==>
        Score(tests[j].measured, tests[0].measured) < Score(tests[k].measured, tests[0].measured))
  }

  /** A limit chosen for a GPU, with the tests that led to it (kept here as history). */
  datatype Choice = Choice(index: int, limit: int, tests: seq<Test>)

  ghost predicate Justified(gpu: PowerRange, start: int, c: Choice) {
    && c.index == gpu.index && Swept(gpu, start, c.tests)
    && c.tests[0].measured.hashrate > 0.0
    && exists k :: 0 <= k < |c.tests| && Best(c.tests, k) && c.limit == c.tests[k].limit
  }

  // ----- the host -----

  /** The limits in force after a log of events: every command that did not fail took effect. */
  function InForce(host: Host, log: seq<Event>): map<int, int> {
    if log == [] then host.initial
    else
      var n := |log| - 1;
      var before := InForce(host, log[..n]);
      if log[n].Command? && !host.faults(n) then before[log[n].index := log[n].watts] else before
  }

  function Looks(index: int): seq<Event> { [Look(index), Look(index), Look(index)] }

  predicate Acceptable(host: Host, at: nat, index: int, maxPower: int, maxTemperature: real) {
    var r := host.reports(at, index);
    && !host.cancelled(at) && r.running && r.found && r.seen.hashrate > 0.0
    && r.seen.power <= maxPower as real + 1.0 && !(maxTemperature > 0.0 && r.seen.temperature >= maxTemperature)
  }

  /** All reports of a span of moments are acceptable. */
  ghost predicate AllAcceptable(host: Host, index: int, from: nat, to: nat, maxPower: int, maxTemperature: real) {
    forall at: nat :: from <= at < to ==> Acceptable(host, at, index, maxPower, maxTemperature)
  }

  function Plus(a: Measurement, b: Measurement): Measurement {
    Measurement(a.hashrate + b.hashrate, a.power + b.power, a.temperature + b.temperature)
  }

  function Total(host: Host, index: int, from: nat, count: nat): Measurement {
    if count == 0 then Measurement(0.0, 0.0, 0.0)
        else Plus(Total(host, index, from, count - 1), host.reports(from + count - 1, index).seen)
  }

  /**
   The last event of a log concerned this GPU, and failed: a command, or a look at something that
   cannot be accepted.
   */
  ghost predicate Failed(host: Host, log: seq<Event>, index: int, maxPower: int, maxTemperature: real) {
    var n := |log| - 1;
    n >= 0 && log[n].index == index
    && if log[n].Command? then host.faults(n) else !Acceptable(host, n, index, maxPower, maxTemperature)
  }

  /** The mean of three reports in a row. */
  function Mean(host: Host, index: int, at: nat): Measurement {
    var sum := Total(host, index, at, SAMPLES);
    Measurement(sum.hashrate / SAMPLES as real, sum.power / SAMPLES as real, sum.temperature / SAMPLES as real)
  }

  lemma {:induction false} TotalBounds(host: Host, index: int, from: nat, count: nat, maxPower: int,
      maxTemperature: real)
    requires AllAcceptable(host, index, from, from + count, maxPower, maxTemperature) && count > 0
    ensures var sum := Total(host, index, from, count);
            && sum.hashrate > 0.0 && sum.power <= count as real * (maxPower as real + 1.0)
            && (maxTemperature > 0.0 ==> sum.temperature < count as real * maxTemperature)
  {
    assert Acceptable(host, from + count - 1, index, maxPower, maxTemperature);
    if count > 1 {
      TotalBounds(host, index, from, count - 1, maxPower, maxTemperature);
      var each := maxPower as real + 1.0;
      assert (count - 1) as real * each + each == count as real * each;
      assert (count - 1) as real * maxTemperature + maxTemperature == count as real * maxTemperature;
    }
  }

  /** A test really was made: three looks at the GPU, with its limit in force, gave that mean. */
  ghost predicate Made(host: Host, log: seq<Event>, index: int, t: Test) {
    && t.at + SAMPLES <= |log| && log[t.at..t.at + SAMPLES] == Looks(index)
    && t.measured == Mean(host, index, t.at)
    && index in InForce(host, log[..t.at]) && InForce(host, log[..t.at])[index] == t.limit
  }

  ghost predicate AllMade(host: Host, log: seq<Event>, from: nat, index: int, tests: seq<Test>) {
    forall j :: 0 <= j < |tests| ==> from <= tests[j].at && Made(host, log, index, tests[j])
  }

  /** What happened stays so. */
  lemma MadeForGood(host: Host, log: seq<Event>, more: seq<Event>, from: nat, index: int, tests: seq<Test>)
    requires AllMade(host, log, from, index, tests) && log <= more
    ensures AllMade(host, more, from, index, tests)
  {
    hide InForce, Mean;
    forall j | 0 <= j < |tests| ensures Made(host, more, index, tests[j]) {
      var t := tests[j];
      assert Made(host, log, index, t);
      assert more[..t.at] == log[..t.at] && more[t.at..t.at + SAMPLES] == log[t.at..t.at + SAMPLES];
    }
  }

  class PowerLimits {
    const host: Host
    var limits: map<int, int>
    var moment: nat
    ghost var log: seq<Event>

    ghost predicate Valid()
      reads this
    {
      moment == |log| && limits == InForce(host, log)
    }

    constructor (host: Host)
      ensures Valid() && this.host == host && log == []
    {
      this.host := host;
      limits := host.initial;
      moment := 0;
      log := [];
    }

    /** setNVIDIAPowerLimit */
    method Set(index: int, watts: int) returns (ok: bool)
      requires Valid()
      modifies this
      ensures Valid() && log == old(log) + [Command(index, watts)]
      ensures ok == !host.faults(|old(log)|)
      ensures limits == if ok then old(limits)[index := watts] else old(limits)
    {
      ok := !host.faults(moment);
      if ok { limits := limits[index := watts]; }
      moment := moment + 1;
      log := log + [Command(index, watts)];
      assert log[..|log| - 1] == old(log);
    }

    /** The miner's hashrate and the GPU's telemetry at this moment. */
    method LookAt(index: int) returns (r: Report)
      requires Valid()
      modifies this
      ensures Valid() && log == old(log) + [Look(index)] && limits == old(limits)
      ensures r == host.reports(|old(log)|, index)
    {
      r := host.reports(moment, index);
      moment := moment + 1;
      log := log + [Look(index)];
      assert log[..|log| - 1] == old(log);
    }
  }

  function Commands(limits: seq<(int, int)>): (r: seq<Event>)
    ensures |r| == |limits|
    ensures forall i :: 0 <= i < |r| ==> r[i] == Command(limits[i].0, limits[i].1)
  {
    seq(|limits|, i requires 0 <= i < |limits| => Command(limits[i].0, limits[i].1))
  }

  /** GPU g holds what it held. */
  ghost predicate Kept(limits: map<int, int>, was: map<int, int>, g: int) {
    (g in limits <==> g in was) && (g in limits ==> limits[g] == was[g])
  }

  ghost predicate Holds(limits: map<int, int>, entry: (int, int)) {
    entry.0 in limits && limits[entry.0] == entry.1
  }

  ghost predicate Lists(entries: seq<(int, int)>, g: int) {
    exists i :: 0 <= i < |entries| && entries[i].0 == g
  }

  /** restorePowerLimits: one command each; failures are ignored, and a GPU whose command did not fail has its limit. */
  method Restore(gpus: PowerLimits, original: seq<(int, int)>)
    requires gpus.Valid()
    requires forall i, j :: 0 <= i < j < |original| ==> original[i].0 != original[j].0
    modifies gpus
    ensures gpus.Valid() && gpus.log == old(gpus.log) + Commands(original)
    ensures forall i :: 0 <= i < |original| && !gpus.host.faults(|old(gpus.log)| + i) ==>
            Holds(gpus.limits, original[i])
    ensures forall g :: !Lists(original, g) ==> Kept(gpus.limits, old(gpus.limits), g)
  {
    hide InForce;
    for i := 0 to |original|
      invariant gpus.Valid() && gpus.log == old(gpus.log) + Commands(original)[..i]
      invariant forall j :: 0 <= j < i && !gpus.host.faults(|old(gpus.log)| + j) ==> Holds(gpus.limits, original[j])
      invariant forall g :: !Lists(original, g) ==> Kept(gpus.limits, old(gpus.limits), g)
    {
      var _ := gpus.Set(original[i].0, original[i].1);
      assert Lists(original, original[i].0);
    }
    assert Commands(original)[..|original|] == Commands(original);
  }

  /** measureGPU: the mean of three reports, if all three are acceptable. */
  method Measure(gpus: PowerLimits, index: int, maxPower: int, maxTemperature: real) returns (m: Option<Measurement>)
    requires gpus.Valid()
    modifies gpus
    ensures gpus.Valid() && gpus.limits == old(gpus.limits)
    ensures m.Some?
            <==> AllAcceptable(gpus.host, index, |old(gpus.log)|, |old(gpus.log)| + SAMPLES, maxPower, maxTemperature)
    ensures m.Some? ==> m.value == Mean(gpus.host, index, |old(gpus.log)|) && gpus.log == old(gpus.log) + Looks(index)
    ensures old(gpus.log) <= gpus.log && forall i :: |old(gpus.log)| <= i < |gpus.log| ==> gpus.log[i].Look?
    ensures m.None? ==> Failed(gpus.host, gpus.log, index, maxPower, maxTemperature)
    ensures m.Some? ==> m.value.hashrate > 0.0 && m.value.power <= maxPower as real + 1.0
    ensures m.Some? && maxTemperature > 0.0 ==> m.value.temperature < maxTemperature
  {
    hide Acceptable, Plus, InForce;
    ghost var from := |gpus.log|;
    var sum := Measurement(0.0, 0.0, 0.0);
    for sample := 0 to SAMPLES
      invariant gpus.Valid() && gpus.limits == old(gpus.limits) && gpus.log == old(gpus.log) + Looks(index)[..sample]
      invariant AllAcceptable(gpus.host, index, from, from + sample, maxPower, maxTemperature)
      invariant sum == Total(gpus.host, index, from, sample)
    {
      var at := gpus.moment;
      var r := gpus.LookAt(index);
      if !Acceptable(gpus.host, at, index, maxPower, maxTemperature) { return None; }
      sum := Plus(sum, r.seen);
    }
    TotalBounds(gpus.host, index, from, SAMPLES, maxPower, maxTemperature);
    m := Some(Measurement(sum.hashrate / SAMPLES as real, sum.power / SAMPLES as real,
        sum.temperature / SAMPLES as real));
  }

  /** Limits of other GPUs are as they were. */
  ghost predicate OnlyAt(limits: map<int, int>, was: map<int, int>, g: int) {
    forall x :: x != g ==> (x in limits <==> x in was) && (x in limits ==> limits[x] == was[x])
  }

  /** The commands since are for this GPU and within its range. */
  ghost predicate TriedHere(log: seq<Event>, before: seq<Event>, index: int, start: int) {
    before <= log && forall i :: |before| <= i < |log| && log[i].Command? ==>
        log[i].index == index && start - RANGE <= log[i].watts <= start
  }

  ghost predicate SweptSoFar(gpu: PowerRange, start: int, tests: seq<Test>) {
    && |tests| > 0
    && forall j :: 0 <= j < |tests| ==>
        tests[j].limit == start - j * STEP && (j > 0 ==> tests[j].limit >= Lowest(gpu, start))
  }

  /** One limit set and measured. */
  method TryLimit(gpus: PowerLimits, gpu: PowerRange, candidate: int, start: int, maxTemperature: real)
    returns (test: Option<Test>)
    requires gpus.Valid() && start - RANGE <= candidate <= start
    modifies gpus
    ensures gpus.Valid() && old(gpus.log) <= gpus.log
    ensures OnlyAt(gpus.limits, old(gpus.limits), gpu.index) && TriedHere(gpus.log, old(gpus.log), gpu.index, start)
    ensures test.None? ==> Failed(gpus.host, gpus.log, gpu.index, start, maxTemperature)
    ensures test.Some? ==>
              && test.value.limit == candidate && test.value.at == |old(gpus.log)| + 1
                  && Made(gpus.host, gpus.log, gpu.index, test.value)
              && Holds(gpus.limits, (gpu.index, candidate))
  {
    hide InForce, Mean, AllAcceptable, Acceptable;
    var ok := gpus.Set(gpu.index, candidate);
    if !ok { return None; }
    ghost var set_ := gpus.log;
    var at := gpus.moment;
    var m := Measure(gpus, gpu.index, start, maxTemperature);
    if m.None? { return None; }
    test := Some(Test(candidate, at, m.value));
    assert gpus.log[..at] == set_;
  }

  /** One GPU's baseline and candidates, ending at the best limit. */
  method TuneOne(gpus: PowerLimits, gpu: PowerRange, start: int, maxTemperature: real) returns (choice: Option<Choice>)
    requires gpus.Valid() && Holds(gpus.limits, (gpu.index, start))
    modifies gpus
    ensures gpus.Valid()
    ensures choice.None? ==> Failed(gpus.host, gpus.log, gpu.index, start, maxTemperature)
    ensures choice.Some? ==>
              && Justified(gpu, start, choice.value)
              && AllMade(gpus.host, gpus.log, |old(gpus.log)|, gpu.index, choice.value.tests)
              && Holds(gpus.limits, (gpu.index, choice.value.limit))
    ensures OnlyAt(gpus.limits, old(gpus.limits), gpu.index)
    ensures TriedHere(gpus.log, old(gpus.log), gpu.index, start)
  {
    hide Score, InForce, Mean, AllAcceptable, Looks, TriedHere, OnlyAt, AllMade, Failed;
    choice := None;
    var began := gpus.moment;
    var baseline := Measure(gpus, gpu.index, start, maxTemperature);
    NothingSet(old(gpus.log), gpus.log, gpus.limits, gpu.index, start);
    if baseline.None? { return; }
    var bestLimit, best := start, baseline.value;
    var tests := [Test(start, began, best)];
    NothingMade(gpus.host, old(gpus.log), |old(gpus.log)|, gpu.index);
    JustMade(gpus.host, old(gpus.log), gpus.log, |old(gpus.log)|, gpu.index, [], tests[0]);
    assert tests == [] + [tests[0]];
    ghost var k: nat := 0;
    var candidate := start - STEP;
    while candidate >= Lowest(gpu, start)
      invariant gpus.Valid() && old(gpus.log) <= gpus.log
      invariant candidate == start - |tests| * STEP && SweptSoFar(gpu, start, tests)
      invariant AllMade(gpus.host, gpus.log, |old(gpus.log)|, gpu.index, tests)
      invariant tests[0].measured == baseline.value && baseline.value.hashrate > 0.0
      invariant Best(tests, k) && bestLimit == tests[k].limit && best == tests[k].measured
      invariant OnlyAt(gpus.limits, old(gpus.limits), gpu.index)
      invariant TriedHere(gpus.log, old(gpus.log), gpu.index, start)
    {
      ghost var soFar, was := gpus.log, gpus.limits;
      var test := TryLimit(gpus, gpu, candidate, start, maxTemperature);
      StillHere(old(gpus.log), soFar, gpus.log, old(gpus.limits), was, gpus.limits, gpu.index, start);
      if test.None? { return; }
      MadeForGood(gpus.host, soFar, gpus.log, |old(gpus.log)|, gpu.index, tests);
      MadeToo(gpus.host, gpus.log, |old(gpus.log)|, gpu.index, tests, test.value);
      BestGrows(tests, k, test.value);
      if Score(test.value.measured, baseline.value) > Score(best, baseline.value) {
        bestLimit, best := candidate, test.value.measured;
        k := |tests|;
      }
      tests := tests + [test.value];
      candidate := candidate - STEP;
    }
    assert tests[k].limit == start - k * STEP;
    choice := Finish(gpus, gpu, start, bestLimit, tests, |old(gpus.log)|, maxTemperature, old(gpus.log),
        old(gpus.limits));
  }

  /** The best limit is set again. */
  method Finish(gpus: PowerLimits, gpu: PowerRange, start: int, best: int, tests: seq<Test>, ghost from: nat,
      ghost maxTemperature: real,
                ghost before: seq<Event>, ghost was: map<int, int>) returns (choice: Option<Choice>)
    requires gpus.Valid() && AllMade(gpus.host, gpus.log, from, gpu.index, tests) && start - RANGE <= best <= start
    requires OnlyAt(gpus.limits, was, gpu.index) && TriedHere(gpus.log, before, gpu.index, start)
    modifies gpus
    ensures gpus.Valid() && OnlyAt(gpus.limits, was, gpu.index) && TriedHere(gpus.log, before, gpu.index, start)
    ensures choice.None? ==> Failed(gpus.host, gpus.log, gpu.index, start, maxTemperature)
    ensures choice.Some? ==>
              && choice.value == Choice(gpu.index, best, tests) && Holds(gpus.limits, (gpu.index, best))
              && AllMade(gpus.host, gpus.log, from, gpu.index, tests)
  {
    hide InForce, AllMade;
    ghost var soFar := gpus.log;
    var ok := gpus.Set(gpu.index, best);
    MadeForGood(gpus.host, soFar, gpus.log, from, gpu.index, tests);
    choice := if ok then Some(Choice(gpu.index, best, tests)) else None;
  }

  lemma NothingSet(before: seq<Event>, log: seq<Event>, limits: map<int, int>, index: int, start: int)
    requires before <= log && forall i :: |before| <= i < |log| ==> log[i].Look?
    ensures TriedHere(log, before, index, start) && OnlyAt(limits, limits, index)
  {
  }

  lemma NothingMade(host: Host, log: seq<Event>, from: nat, index: int)
    ensures AllMade(host, log, from, index, [])
  {
  }

  lemma StillHere(first: seq<Event>, before: seq<Event>, log: seq<Event>, initial: map<int, int>, was: map<int, int>,
      limits: map<int, int>, index: int, start: int)
    requires TriedHere(before, first, index, start) && TriedHere(log, before, index, start)
    requires OnlyAt(was, initial, index) && OnlyAt(limits, was, index)
    ensures TriedHere(log, first, index, start) && OnlyAt(limits, initial, index) && first <= log
  {
    forall i | |first| <= i < |log| && log[i].Command?
      ensures log[i].index == index && start - RANGE <= log[i].watts <= start
    {
      if i < |before| { assert before[i] == log[i]; }
    }
  }

  lemma MadeToo(host: Host, log: seq<Event>, from: nat, index: int, tests: seq<Test>, t: Test)
    requires AllMade(host, log, from, index, tests) && from <= t.at && Made(host, log, index, t)
    ensures AllMade(host, log, from, index, tests + [t])
  {
    hide Made;
  }

  /** The newest test joins those made before. */
  lemma JustMade(host: Host, before: seq<Event>, log: seq<Event>, from: nat, index: int, tests: seq<Test>, t: Test)
    requires AllMade(host, before, from, index, tests) && log == before + Looks(index)
    requires from <= t.at == |before| && t.measured == Mean(host, index, t.at)
    requires index in InForce(host, before) && InForce(host, before)[index] == t.limit
    ensures AllMade(host, log, from, index, tests + [t])
  {
    hide InForce, Mean;
    MadeForGood(host, before, log, from, index, tests);
    assert log[..t.at] == before && log[t.at..t.at + SAMPLES] == Looks(index);
  }

  lemma BestGrows(tests: seq<Test>, k: nat, t: Test)
    requires Best(tests, k)
    ensures var more := tests + [t];
            var baseline := tests[0].measured;
            Best(more, if Score(t.measured, baseline) > Score(tests[k].measured, baseline) then |tests| else k)
  {
    hide Score;
    var more := tests + [t];
    assert forall j :: 0 <= j < |tests| ==> more[j] == tests[j];
  }

  /** What the first n GPUs are put back to. */
  function Originals(ranges: seq<PowerRange>, n: nat, maxPowerW: int): (r: seq<(int, int)>)
    requires n <= |ranges|
    ensures |r| == n
    ensures forall i :: 0 <= i < n ==> r[i] == (ranges[i].index, Original(ranges[i], maxPowerW))
  {
    if n == 0 then []
        else Originals(ranges, n - 1, maxPowerW) + [(ranges[n - 1].index, Original(ranges[n - 1], maxPowerW))]
  }

  ghost predicate Distinct(ranges: seq<PowerRange>) {
    forall i, j :: 0 <= i < j < |ranges| ==> ranges[i].index != ranges[j].index
  }

  /** A limit that lies between some GPU's ceiling and the range below it. */
  ghost predicate InRange(e: Event, ranges: seq<PowerRange>, requested: int) {
    e.Command? ==> exists i :: 0 <= i < |ranges| && ranges[i].index == e.index
                               && Ceiling(ranges[i], requested) - RANGE <= e.watts <= Ceiling(ranges[i], requested)
  }

  /** No limit was set above a GPU's ceiling or more than the range below it, from one moment to another. */
  ghost predicate WithinRange(log: seq<Event>, from: nat, to: int, ranges: seq<PowerRange>, requested: int) {
    forall t :: from <= t < to && t < |log| ==> InRange(log[t], ranges, requested)
  }

  lemma TriedMore(before: seq<Event>, after: seq<Event>, from: nat, ranges: seq<PowerRange>, requested: int, k: nat)
    requires from <= |before| && WithinRange(before, from, |before|, ranges, requested) && k < |ranges|
    requires TriedHere(after, before, ranges[k].index, Ceiling(ranges[k], requested))
    ensures WithinRange(after, from, |after|, ranges, requested)
  {
    forall t | from <= t < |after| ensures InRange(after[t], ranges, requested) {
      if t < |before| {
        assert after[t] == before[t];
      } else if after[t].Command? {
        assert ranges[k].index == after[t].index;
      }
    }
  }

  /**
   The last n commands were those that put the first n GPUs back; each that did not fail did,
   and the GPUs after them were never touched.
   */
  ghost predicate PutBack(gpus: PowerLimits, was: map<int, int>, ranges: seq<PowerRange>, n: nat, maxPowerW: int)
    reads gpus
  {
    && n <= |ranges| && n <= |gpus.log|
    && gpus.log[|gpus.log| - n..] == Commands(Originals(ranges, n, maxPowerW))
    && (forall i :: 0 <= i < n && !gpus.host.faults(|gpus.log| - n + i) ==>
          Holds(gpus.limits, (ranges[i].index, Original(ranges[i], maxPowerW))))
    && (forall i :: n <= i < |ranges| ==> Kept(gpus.limits, was, ranges[i].index))
  }

  method PutBackFirst(gpus: PowerLimits, ranges: seq<PowerRange>, n: nat, maxPowerW: int, ghost was: map<int, int>)
    requires gpus.Valid() && Distinct(ranges) && n <= |ranges|
    requires forall i :: n <= i < |ranges| ==> Kept(gpus.limits, was, ranges[i].index)
    modifies gpus
    ensures gpus.Valid() && PutBack(gpus, was, ranges, n, maxPowerW) && |gpus.log| == |old(gpus.log)| + n
            && old(gpus.log) <= gpus.log
  {
    var original := Originals(ranges, n, maxPowerW);
    Restore(gpus, original);
    assert gpus.log[|gpus.log| - n..] == Commands(original);
    forall i | n <= i < |ranges| ensures Kept(gpus.limits, was, ranges[i].index) {
      assert !Lists(original, ranges[i].index);
    }
  }

  /** The first n GPUs stand at their ceilings. */
  ghost predicate AtCeilings(limits: map<int, int>, ranges: seq<PowerRange>, from: nat, to: nat, requested: int) {
    forall i :: from <= i < to && i < |ranges| ==>
        ranges[i].index in limits && limits[ranges[i].index] == Ceiling(ranges[i], requested)
  }

  /** The run was cancelled, or the last thing it did for some GPU failed. */
  ghost predicate GaveUp(host: Host, log: seq<Event>, ranges: seq<PowerRange>, requested: int, maxTemperature: real) {
    || host.cancelled(|log|)
    || exists i :: 0 <= i < |ranges|
        && Failed(host, log, ranges[i].index, Ceiling(ranges[i], requested), maxTemperature)
  }

  /** Putting every GPU at its ceiling; touched counts the GPUs reached, the failing one included. */
  method RaiseAll(gpus: PowerLimits, ranges: seq<PowerRange>, requested: int, ghost maxTemperature: real)
    returns (ok: bool, touched: nat)
    requires gpus.Valid() && Distinct(ranges)
    modifies gpus
    ensures gpus.Valid()
    ensures touched <= |ranges| && (ok ==> touched == |ranges|) && (!ok ==> touched > 0)
    ensures forall i :: touched <= i < |ranges| ==> Kept(gpus.limits, old(gpus.limits), ranges[i].index)
    ensures ok ==> AtCeilings(gpus.limits, ranges, 0, |ranges|, requested)
    ensures !ok ==> GaveUp(gpus.host, gpus.log, ranges, requested, maxTemperature)
    ensures old(gpus.log) <= gpus.log && WithinRange(gpus.log, |old(gpus.log)|, |gpus.log|, ranges, requested)
  {
    hide Ceiling, WithinRange, InForce;
    touched := 0;
    NothingTried(gpus.log, ranges, requested);
    while touched < |ranges|
      invariant touched <= |ranges| && gpus.Valid()
      invariant forall i :: touched <= i < |ranges| ==> Kept(gpus.limits, old(gpus.limits), ranges[i].index)
      invariant AtCeilings(gpus.limits, ranges, 0, touched, requested)
      invariant old(gpus.log) <= gpus.log && WithinRange(gpus.log, |old(gpus.log)|, |gpus.log|, ranges, requested)
    {
      ghost var before := gpus.log;
      var set_ := gpus.Set(ranges[touched].index, Ceiling(ranges[touched], requested));
      TriedMore(before, gpus.log, |old(gpus.log)|, ranges, requested, touched);
      touched := touched + 1;
      if !set_ { return false, touched; }
    }
    ok := true;
  }

  lemma NothingTried(log: seq<Event>, ranges: seq<PowerRange>, requested: int)
    ensures WithinRange(log, |log|, |log|, ranges, requested)
  {
  }

  /** A GPU's choice: justified by tests that were made, and its limit in force. */
  ghost predicate Settled(host: Host, log: seq<Event>, limits: map<int, int>, from: nat, gpu: PowerRange,
      requested: int, c: Choice)
  {
    && Justified(gpu, Ceiling(gpu, requested), c) && AllMade(host, log, from, gpu.index, c.tests)
    && Holds(limits, (gpu.index, c.limit))
  }

  /** The first n GPUs have their choices. */
  ghost predicate Selected(host: Host, log: seq<Event>, limits: map<int, int>, from: nat, ranges: seq<PowerRange>,
      n: nat, requested: int, choices: seq<Choice>)
  {
    |choices| == n <= |ranges| && forall i :: 0 <= i < n ==>
        Settled(host, log, limits, from, ranges[i], requested, choices[i])
  }

  lemma OneMore(host: Host, before: seq<Event>, log: seq<Event>, from: nat, was: map<int, int>, limits: map<int, int>,
      ranges: seq<PowerRange>, n: nat, requested: int, choices: seq<Choice>, c: Choice)
    requires Distinct(ranges) && n < |ranges| && from <= |before| && before <= log
    requires Selected(host, before, was, from, ranges, n, requested, choices)
             && AtCeilings(was, ranges, n, |ranges|, requested)
    requires Justified(ranges[n], Ceiling(ranges[n], requested), c)
             && AllMade(host, log, |before|, ranges[n].index, c.tests)
    requires Holds(limits, (ranges[n].index, c.limit)) && OnlyAt(limits, was, ranges[n].index)
    ensures Selected(host, log, limits, from, ranges, n + 1, requested, choices + [c])
            && AtCeilings(limits, ranges, n + 1, |ranges|, requested)
  {
    hide Justified, AllMade, Ceiling;
    forall i | 0 <= i < n + 1 ensures Settled(host, log, limits, from, ranges[i], requested, (choices + [c])[i]) {
      if i < n {
        assert Settled(host, before, was, from, ranges[i], requested, choices[i]);
        MadeForGood(host, before, log, from, ranges[i].index, choices[i].tests);
      } else {
        MadeSince(host, log, from, |before|, ranges[n].index, c.tests);
      }
    }
  }

  /** Every GPU in turn, until one fails or the run is cancelled. */
  method TuneAll(gpus: PowerLimits, ranges: seq<PowerRange>, requested: int, maxTemperature: real)
    returns (selected: Option<seq<Choice>>)
    requires gpus.Valid() && Distinct(ranges) && AtCeilings(gpus.limits, ranges, 0, |ranges|, requested)
    modifies gpus
    ensures gpus.Valid()
    ensures selected.None? ==> GaveUp(gpus.host, gpus.log, ranges, requested, maxTemperature)
    ensures selected.Some? ==>
            Selected(gpus.host, gpus.log, gpus.limits, |old(gpus.log)|, ranges, |ranges|, requested, selected.value)
    ensures old(gpus.log) <= gpus.log && WithinRange(gpus.log, |old(gpus.log)|, |gpus.log|, ranges, requested)
  {
    hide Ceiling, WithinRange, Justified, AllMade, InForce, Settled, OnlyAt, Failed;
    var choices: seq<Choice> := [];
    NothingTried(gpus.log, ranges, requested);
    for position := 0 to |ranges|
      invariant gpus.Valid()
                && Selected(gpus.host, gpus.log, gpus.limits, |old(gpus.log)|, ranges, position, requested, choices)
      invariant AtCeilings(gpus.limits, ranges, position, |ranges|, requested)
      invariant old(gpus.log) <= gpus.log && WithinRange(gpus.log, |old(gpus.log)|, |gpus.log|, ranges, requested)
    {
      if gpus.host.cancelled(gpus.moment) { return None; }
      ghost var before, set_ := gpus.log, gpus.limits;
      var choice := TuneOne(gpus, ranges[position], Ceiling(ranges[position], requested), maxTemperature);
      TriedMore(before, gpus.log, |old(gpus.log)|, ranges, requested, position);
      if choice.None? { return None; }
      OneMore(gpus.host, before, gpus.log, |old(gpus.log)|, set_, gpus.limits, ranges, position, requested, choices,
          choice.value);
      choices := choices + [choice.value];
    }
    selected := Some(choices);
  }

  lemma MadeSince(host: Host, log: seq<Event>, from: nat, later: nat, index: int, tests: seq<Test>)
    requires from <= later && AllMade(host, log, later, index, tests)
    ensures AllMade(host, log, from, index, tests)
  {
    hide Made;
  }

  /**
   runSmartTune. It ends with every GPU at a limit justified by measurements made under it, or
   with the commands that put every GPU it touched back at its original limit within the
   controller's; where those do not fail, that is where the GPUs are.
   */
  method RunSmartTune(gpus: PowerLimits, ranges: seq<PowerRange>, asked: int, maxPowerW: int, maxTemperature: real,
      ready: bool)
    returns (selected: Option<seq<Choice>>, ghost touched: nat)
    requires gpus.Valid() && Distinct(ranges)
    modifies gpus
    ensures gpus.Valid() && old(gpus.log) <= gpus.log
    ensures selected.Some? ==> 60.0 <= maxTemperature <= 85.0 && touched == 0
                               && Selected(gpus.host, gpus.log, gpus.limits, |old(gpus.log)|, ranges, |ranges|,
                                   Requested(asked, maxPowerW), selected.value)
    ensures selected.None? ==> PutBack(gpus, old(gpus.limits), ranges, touched, maxPowerW)
    ensures selected.None? && touched == 0 ==> gpus.limits == old(gpus.limits) && gpus.log == old(gpus.log)
    ensures selected.None? && touched > 0 ==>
            GaveUp(gpus.host, gpus.log[..|gpus.log| - touched], ranges, Requested(asked, maxPowerW), maxTemperature)
    ensures selected.None? && touched == 0 ==>
            asked < 0 || maxTemperature < 60.0 || maxTemperature > 85.0 || !ready || |ranges| == 0
    ensures WithinRange(gpus.log, |old(gpus.log)|, |gpus.log| - touched, ranges, Requested(asked, maxPowerW))
  {
    hide Ceiling, WithinRange, Selected, InForce, AtCeilings, PutBack, Requested, GaveUp;
    selected, touched := None, 0;
    NothingTried(gpus.log, ranges, Requested(asked, maxPowerW));
    NothingToPutBack(gpus, ranges, maxPowerW);
    if asked < 0 || maxTemperature < 60.0 || maxTemperature > 85.0 { return; }
    if !ready || |ranges| == 0 { return; }
    var requested := Requested(asked, maxPowerW);
    var raised, reached := RaiseAll(gpus, ranges, requested, maxTemperature);
    ghost var before := gpus.log;
    if raised {
      selected := TuneAll(gpus, ranges, requested, maxTemperature);
      TriedBoth(before, gpus.log, |old(gpus.log)|, ranges, requested);
    }
    if selected.Some? {
      SelectedSince(gpus.host, gpus.log, gpus.limits, |old(gpus.log)|, |before|, ranges, requested, selected.value);
    } else {
      ghost var measured := gpus.log;
      touched := reached;
      PutBackFirst(gpus, ranges, reached, maxPowerW, old(gpus.limits));
      assert gpus.log[..|measured|] == measured;
      TriedBefore(measured, gpus.log, |old(gpus.log)|, ranges, requested);
    }
  }

  lemma NothingToPutBack(gpus: PowerLimits, ranges: seq<PowerRange>, maxPowerW: int)
    ensures PutBack(gpus, gpus.limits, ranges, 0, maxPowerW)
  {
    assert gpus.log[|gpus.log| - 0..] == Commands(Originals(ranges, 0, maxPowerW));
  }

  lemma SelectedSince(host: Host, log: seq<Event>, limits: map<int, int>, from: nat, later: nat,
      ranges: seq<PowerRange>, requested: int, choices: seq<Choice>)
    requires from <= later && Selected(host, log, limits, later, ranges, |ranges|, requested, choices)
    ensures Selected(host, log, limits, from, ranges, |ranges|, requested, choices)
  {
    hide Justified, AllMade;
    forall i | 0 <= i < |ranges| ensures Settled(host, log, limits, from, ranges[i], requested, choices[i]) {
      MadeSince(host, log, from, later, ranges[i].index, choices[i].tests);
    }
  }

  lemma TriedBoth(before: seq<Event>, after: seq<Event>, from: nat, ranges: seq<PowerRange>, requested: int)
    requires from <= |before| && before <= after
    requires WithinRange(before, from, |before|, ranges, requested)
             && WithinRange(after, |before|, |after|, ranges, requested)
    ensures WithinRange(after, from, |after|, ranges, requested)
  {
    forall t | from <= t < |after| ensures InRange(after[t], ranges, requested) {
      if t < |before| { assert after[t] == before[t]; }
    }
  }

  lemma TriedBefore(before: seq<Event>, after: seq<Event>, from: nat, ranges: seq<PowerRange>, requested: int)
    requires before <= after && WithinRange(before, from, |before|, ranges, requested)
    ensures WithinRange(after, from, |before|, ranges, requested)
  {
    forall t | from <= t < |before| ensures InRange(after[t], ranges, requested) {
      assert after[t] == before[t];
    }
  }

  // ----- what the score buys -----

  lemma Product(a: real, b: real, c: real)
    requires a >= b && c > 0.0
    ensures a * c >= b * c && a / c >= b / c
  {
  }

  /**
   A candidate that scores at least as well as the baseline itself loses at most 3 % of the
   hashrate, and if it is no faster it is no less efficient.
   */
  lemma ScoreMeaning(m: Measurement, baseline: Measurement)
    requires baseline.hashrate > 0.0 && baseline.power > 0.0
    requires Score(m, baseline) >= Score(baseline, baseline)
    ensures m.power > 0.0 && m.hashrate >= baseline.hashrate * 0.97
    ensures m.hashrate <= baseline.hashrate ==> m.hashrate / m.power >= baseline.hashrate / baseline.power
  {
    BaselineScore(baseline);
    if m.hashrate <= baseline.hashrate {
      var h := m.hashrate / baseline.hashrate;
      var b := baseline.hashrate / baseline.power;
      var e := (m.hashrate / m.power) / b;
      Product(baseline.hashrate, m.hashrate, baseline.hashrate);
      assert h <= 1.0;
      assert h * 0.6 + e * 0.4 >= 1.0;
      assert e >= 1.0;
      Positive(baseline.hashrate, baseline.power);
      Undivide(m.hashrate / m.power, b);
    }
  }

  lemma Positive(a: real, b: real)
    requires a > 0.0 && b > 0.0
    ensures a / b > 0.0
  {
  }

  lemma Undivide(a: real, b: real)
    requires b > 0.0 && a / b >= 1.0
    ensures a >= b
  {
    assert a == (a / b) * b;
  }

  lemma BaselineScore(baseline: Measurement)
    requires baseline.hashrate > 0.0 && baseline.power > 0.0
    ensures Score(baseline, baseline) == 1.0
  {
    var b := baseline.hashrate / baseline.power;
    Positive(baseline.hashrate, baseline.power);
    assert b / b == 1.0;
    assert baseline.hashrate / baseline.hashrate == 1.0;
  }

  /**
   A justified choice lies between the ceiling and 10 W below it, gives at least 97 % of the
   baseline hashrate, and if it gives no more than that is at least as efficient; it is the
   ceiling itself when no power was measured there.
   */
  lemma ChoiceIsWorthwhile(gpu: PowerRange, start: int, c: Choice) returns (k: nat)
    requires Justified(gpu, start, c)
    ensures k < |c.tests| && c.tests[k].limit == c.limit && start - 10 <= c.limit <= start
    ensures c.limit == start || c.limit >= gpu.minimum
    ensures var baseline, m := c.tests[0].measured, c.tests[k].measured;
            if baseline.power <= 0.0 then c.limit == start
            else m.hashrate >= baseline.hashrate * 0.97
                 && (m.hashrate <= baseline.hashrate ==> m.hashrate / m.power >= baseline.hashrate / baseline.power)
  {
    k :| 0 <= k < |c.tests| && Best(c.tests, k) && c.limit == c.tests[k].limit;
    var baseline := c.tests[0].measured;
    if baseline.power > 0.0 {
      ScoreMeaning(c.tests[k].measured, baseline);
    } else {
      assert Score(c.tests[0].measured, baseline) == 0.0 && Score(c.tests[k].measured, baseline) == 0.0;
    }
  }

  /** Hashes per watt. */
  function Efficiency(m: Measurement): real {
    if m.power > 0.0 then m.hashrate / m.power else 0.0
  }

  /** A test that drew power and kept 97 % of the baseline's hashrate. */
  predicate Contends(m: Measurement, baseline: Measurement) {
    m.power > 0.0 && m.hashrate >= baseline.hashrate * 0.97
  }

  lemma Shares(a: real, b: real, c: real)
    requires c > 0.0
    ensures (a - b) / c == a / c - b / c
  {
  }

  /**
   Of two contenders one scores higher exactly when its gain in hashrate, relative to the baseline and
   counted three times, outweighs its loss in efficiency, relative to the baseline and counted twice.
   */
  lemma ScoreWeighs(a: Measurement, b: Measurement, baseline: Measurement)
    requires baseline.hashrate > 0.0 && baseline.power > 0.0 && Contends(a, baseline) && Contends(b, baseline)
    ensures Efficiency(baseline) > 0.0
    ensures Score(a, baseline) > Score(b, baseline) <==>
              3.0 * ((a.hashrate - b.hashrate) / baseline.hashrate)
                > 2.0 * ((Efficiency(b) - Efficiency(a)) / Efficiency(baseline))
  {
    Positive(baseline.hashrate, baseline.power);
    Shares(a.hashrate, b.hashrate, baseline.hashrate);
    Shares(Efficiency(b), Efficiency(a), Efficiency(baseline));
  }

  /** What contends scores above everything that does not. */
  lemma ContenderScores(m: Measurement, baseline: Measurement)
    requires baseline.hashrate > 0.0 && baseline.power > 0.0
    ensures Score(m, baseline) > 0.0 <==> Contends(m, baseline)
    ensures Score(m, baseline) >= 0.0
  {
    if Contends(m, baseline) {
      Positive(m.hashrate, baseline.hashrate);
      Positive(m.hashrate, m.power);
      Positive(baseline.hashrate, baseline.power);
      Positive(m.hashrate / m.power, baseline.hashrate / baseline.power);
    }
  }

  /**
   Against the chosen test no other contender has the better of that balance, and none tested earlier,
   at a higher limit, has an equal one.
   */
  lemma ChoiceOutweighs(gpu: PowerRange, start: int, c: Choice, j: nat) returns (k: nat)
    requires Justified(gpu, start, c) && c.tests[0].measured.power > 0.0
    requires j < |c.tests| && Contends(c.tests[j].measured, c.tests[0].measured)
    ensures k < |c.tests| && c.tests[k].limit == c.limit && Contends(c.tests[k].measured, c.tests[0].measured)
    ensures var baseline, rival, chosen := c.tests[0].measured, c.tests[j].measured, c.tests[k].measured;
            var gain := 3.0 * ((rival.hashrate - chosen.hashrate) / baseline.hashrate);
            var loss := 2.0 * ((Efficiency(chosen) - Efficiency(rival)) / Efficiency(baseline));
            && Efficiency(baseline) > 0.0
            && gain <= loss
            && (j < k ==> gain < loss)
  {
    hide Score;
    k :| 0 <= k < |c.tests| && Best(c.tests, k) && c.limit == c.tests[k].limit;
    var baseline, rival, chosen := c.tests[0].measured, c.tests[j].measured, c.tests[k].measured;
    ContenderScores(rival, baseline);
    ContenderScores(chosen, baseline);
    ScoreWeighs(rival, chosen, baseline);
    ScoreWeighs(chosen, rival, baseline);
    Shares(chosen.hashrate, rival.hashrate, baseline.hashrate);
    Shares(rival.hashrate, chosen.hashrate, baseline.hashrate);
    Shares(Efficiency(chosen), Efficiency(rival), Efficiency(baseline));
    Shares(Efficiency(rival), Efficiency(chosen), Efficiency(baseline));
  }

  /**
   The first limit tried is the highest one that neither the GPU, nor a request, nor the controller
   forbids, where a request of 0 and a controller limit of 0 or below forbid nothing; and the limit put
   back is the one before, unless the controller forbids it.
   */
  lemma LimitsAreHighest(gpu: PowerRange, asked: int, maxPowerW: int, watts: int)
    requires asked >= 0
    ensures watts <= Ceiling(gpu, Requested(asked, maxPowerW)) <==>
              watts <= gpu.maximum && (asked > 0 ==> watts <= asked) && (maxPowerW > 0 ==> watts <= maxPowerW)
    ensures watts <= Original(gpu, maxPowerW) <==> watts <= gpu.current && (maxPowerW > 0 ==> watts <= maxPowerW)
  {
  }

  lemma SweptAt(gpu: PowerRange, start: int, tests: seq<Test>, j: nat)
    requires Swept(gpu, start, tests) && 0 < j < |tests|
    ensures start - 5 * j >= Lowest(gpu, start)
  {
    assert tests[j].limit == start - j * STEP;
  }

  /** The limits tried are the first one and, where the GPU goes that low, 5 W and 10 W below it. */
  lemma LimitsTried(gpu: PowerRange, start: int, c: Choice)
    requires Justified(gpu, start, c)
    ensures |c.tests| == 1 + (if start - 5 >= gpu.minimum then 1 else 0) + (if start - 10 >= gpu.minimum then 1 else 0)
    ensures forall j :: 0 <= j < |c.tests| ==> c.tests[j].limit == start - 5 * j
  {
    hide Best;
    if |c.tests| > 1 { assert c.tests[1].limit == start - 5; }
    if |c.tests| > 2 { assert c.tests[2].limit == start - 10; }
    if |c.tests| > 3 { SweptAt(gpu, start, c.tests, 3); }
  }
}
