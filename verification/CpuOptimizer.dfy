/**
 Governor trials on a CPU-only rig: a stable baseline is measured, every governor is set to
 "performance", and unless three stable samples show a measurable gain the old governors are
 written back. Writes are numbered, and any of them may fail.
 */
module CpuOptimizer {
  import opened Wrappers
  import opened Faults

  const PERFORMANCE := "performance"
  const SAMPLES := 3

  type Governors = map<string, string>

  // ----- samples -----

  function Sum(v: seq<real>): real {
    if v == [] then 0.0 else Sum(v[..|v| - 1]) + v[|v| - 1]
  }

  function Average(v: seq<real>): real
    requires v != []
  {
    Sum(v) / |v| as real
  }

  function Deviation(x: real, mean: real): real
    requires mean != 0.0
  {
    (if x >= mean then x - mean else mean - x) / mean
  }

  /** stableHashrates */
  predicate Stable(v: seq<real>) {
    && |v| >= SAMPLES && Average(v) > 0.0
    && forall i :: 0 <= i < |v| ==> Deviation(v[i], Average(v)) <= 0.03
  }

  /** appendRecent */
  function AppendRecent(v: seq<real>, x: real): (r: seq<real>)
    ensures |v| <= SAMPLES ==> |r| <= SAMPLES
  {
    if |v| + 1 > SAMPLES then (v + [x])[|v| + 1 - SAMPLES..] else v + [x]
  }

  /** measurableImprovement */
  predicate Improves(before: real, after: real) {
    before > 0.0 && after >= before * 1.01
  }

  method AverageOf(v: seq<real>) returns (mean: real)
    requires v != []
    ensures mean == Average(v)
  {
    var n := 0.0;
    for i := 0 to |v|
      invariant n == Sum(v[..i])
    {
      assert v[..i + 1][..i] == v[..i];
      n := n + v[i];
    }
    assert v[..|v|] == v;
    mean := n / |v| as real;
  }

  method IsStable(v: seq<real>) returns (stable: bool)
    ensures stable == Stable(v)
  {
    if |v| < SAMPLES { return false; }
    var mean := AverageOf(v);
    if mean <= 0.0 { return false; }
    for i := 0 to |v|
      invariant forall j :: 0 <= j < i ==> Deviation(v[j], mean) <= 0.03
    {
      if Deviation(v[i], mean) > 0.03 { return false; }
    }
    stable := true;
  }

  // ----- one heartbeat, as far as the decisions go -----

  datatype Control = Control(key: string, baseline: seq<real>, after: seq<real>, trial: bool, baselineRate: real)

  const IDLE := Control("", [], [], false, 0.0)

  /**
   measurable: a running CPU-only miner; steady: not in a transition, with a workload and a
   hashrate; candidate: some governor is not "performance".
   */
  datatype Beat = Beat(key: string, hashrate: real, measurable: bool, steady: bool, candidate: bool)

  datatype Verdict = Nothing | Opened | Failed | Accepted | Rejected | Abandoned

  function WithKey(c: Control, key: string): Control {
    if key != c.key then c.(key := key, baseline := [], after := [], trial := false) else c
  }

  /** wrote: whether every governor could be written when a trial was to start. */
  function Decide(c: Control, b: Beat, wrote: bool): (Control, Verdict) {
    if !b.measurable || !b.steady then
      (c.(key := b.key, baseline := [], after := [], trial := false), if c.trial then Abandoned else Nothing)
    else if !WithKey(c, b.key).trial then
      var d := WithKey(c, b.key).(baseline := AppendRecent(WithKey(c, b.key).baseline, b.hashrate));
      var left := if c.trial then Abandoned else Nothing;
      if !Stable(d.baseline) then (d, left)
      else
        var e := d.(baselineRate := Average(d.baseline));
        if !b.candidate then (e, left)
        else if wrote then (e.(after := [], trial := true), Opened)
        else (e, Failed)
    else
      var d := c.(after := AppendRecent(c.after, b.hashrate));
      if !Stable(d.after) then (d, Nothing)
      else (d.(trial := false, baseline := [Average(d.after)], after := []),
          if Improves(c.baselineRate, Average(d.after)) then Accepted else Rejected)
  }

  // ----- the optimizer -----

  /** Why a change was kept. */
  datatype Evidence = Evidence(key: string, baseline: seq<real>, after: seq<real>)

  ghost predicate Convincing(e: Evidence) {
    && Stable(e.baseline) && Stable(e.after) && |e.baseline| == SAMPLES && |e.after| == SAMPLES
    && Average(e.after) >= Average(e.baseline) * 1.01
  }

  /** A file holds what it deserves or "performance". */
  ghost predicate Tame(files: Governors, deserved: Governors) {
    files.Keys == deserved.Keys && forall p :: p in files ==> files[p] == deserved[p] || files[p] == PERFORMANCE
  }

  ghost predicate DeservedOutside(files: Governors, deserved: Governors, except_: set<string>) {
    forall p :: p in files && p !in except_ && p in deserved ==> files[p] == deserved[p]
  }

  /** What is remembered for a rollback is what the file deserves, unless it was stuck already. */
  ghost predicate Remembered(originals: Governors, deserved: Governors, stuck: set<string>) {
    forall p :: p in originals ==>
        p in deserved && (originals[p] == deserved[p] || (p in stuck && originals[p] == PERFORMANCE))
  }

  ghost predicate AllPerformance(files: Governors, paths: set<string>) {
    forall p :: p in paths ==> p in files && files[p] == PERFORMANCE
  }

  /** A file that is stuck, and was not before, is one whose old governor could not be written back since. */
  ghost predicate StuckBy(stuck: set<string>, before: set<string>, faults: nat -> bool, log: seq<(string, string)>,
      from: nat)
  {
    forall p :: p in stuck && p !in before ==> FailedToRestore(faults, log, from, p)
  }

  ghost predicate FailedToRestore(faults: nat -> bool, log: seq<(string, string)>, from: nat, p: string) {
    exists i :: from <= i < |log| && faults(i) && log[i].0 == p && log[i].1 != PERFORMANCE
  }

  /** What is stuck after two stretches of writes. */
  lemma StuckOver(a: set<string>, b: set<string>, c: set<string>, faults: nat -> bool, first: seq<(string, string)>,
      log: seq<(string, string)>, from: nat)
    requires from <= |first| && first <= log
    requires StuckBy(b, a, faults, first, from) && StuckBy(c, b, faults, log, |first|)
    ensures StuckBy(c, a, faults, log, from)
  {
    forall p | p in c && p !in a ensures FailedToRestore(faults, log, from, p) {
      if p in b {
        var i :| from <= i < |first| && faults(i) && first[i].0 == p && first[i].1 != PERFORMANCE;
        assert log[i] == first[i];
      } else {
        assert FailedToRestore(faults, log, |first|, p);
      }
    }
  }

  /** Where every old governor could be written back, nothing is stuck. */
  lemma NothingStuck(files: Governors, deserved: Governors, stuck: set<string>, faults: nat -> bool,
      log: seq<(string, string)>)
    requires Tame(files, deserved) && DeservedOutside(files, deserved, stuck) && StuckBy(stuck, {}, faults, log, 0)
    ensures AllRestored(faults, log) ==> files == deserved
  {
    if AllRestored(faults, log) {
      forall p ensures !FailedToRestore(faults, log, 0, p) {}
    }
  }

  /** No attempt to write an old governor back ever failed. */
  ghost predicate AllRestored(faults: nat -> bool, log: seq<(string, string)>) {
    forall i :: 0 <= i < |log| && log[i].1 != PERFORMANCE ==> !faults(i)
  }

  lemma NothingMoreStuck(stuck: set<string>, faults: nat -> bool, log: seq<(string, string)>, from: nat)
    ensures StuckBy(stuck, stuck, faults, log, from)
  {
  }

  /** What could be read of the governor files. */
  function Readable(files: Governors, paths: set<string>): Governors {
    map p | p in paths && p in files :: files[p]
  }

  ghost predicate HasCandidate(governors: Governors) {
    exists p :: p in governors && governors[p] != PERFORMANCE
  }

  /** The accepted trial's files deserve "performance" from then on. */
  ghost predicate Promoted(deserved: Governors, before: Governors, trial: set<string>) {
    deserved.Keys == before.Keys && forall p :: p in deserved ==>
        deserved[p] == if p in trial then PERFORMANCE else before[p]
  }

  ghost predicate SamplesOk(c: Control, trialBaseline: seq<real>, evidence: seq<Evidence>) {
    && |c.baseline| <= SAMPLES && |c.after| <= SAMPLES
    && (c.trial ==> Stable(trialBaseline) && |trialBaseline| == SAMPLES && c.baselineRate == Average(trialBaseline))
    && forall i :: 0 <= i < |evidence| ==> Convincing(evidence[i])
  }

  /** One file was to be written back. */
  lemma WrittenBack(files: Governors, deserved: Governors, originals: Governors, stuck: set<string>, left: set<string>,
      p: string, ok: bool)
    requires Tame(files, deserved) && Remembered(originals, deserved, stuck) && p in originals && p in left
    requires DeservedOutside(files, deserved, left + stuck)
    ensures var after := if ok then files[p := originals[p]] else files;
            var lost := if after[p] != deserved[p] then stuck + {p} else stuck;
            && p in files && Tame(after, deserved) && Remembered(originals, deserved, lost)
            && DeservedOutside(after, deserved, (left - {p}) + lost)
  {
  }

  /** One file was set to "performance". */
  lemma Raised(files: Governors, deserved: Governors, before: Governors, paths: set<string>, left: set<string>,
      p: string)
    requires Tame(files, deserved) && files.Keys == before.Keys && p in paths && p in files && p in left
    requires AllPerformance(files, paths - left)
    requires forall q :: q in files && q !in paths ==> files[q] == before[q]
    ensures var after := files[p := PERFORMANCE];
            && Tame(after, deserved) && after.Keys == before.Keys && AllPerformance(after, paths - (left - {p}))
            && forall q :: q in after && q !in paths ==> after[q] == before[q]
  {
  }

  class Optimizer {
    /** Which writes fail. */
    const faults: nat -> bool
    /** The governor files of the host. */
    var files: Governors
    var writes: nat
    /** Every write attempted so far. */
    ghost var log: seq<(string, string)>
    var control: Control
    var originals: Governors
    /** What each file would hold had only the accepted changes been made. */
    ghost var deserved: Governors
    /** Files left changed because their old governor could not be written back. */
    ghost var stuck: set<string>
    ghost var evidence: seq<Evidence>
    ghost var trialBaseline: seq<real>

    ghost predicate Valid()
      reads this
    {
      && Tame(files, deserved) && Remembered(originals, deserved, stuck)
      && (!control.trial ==> originals == map[])
      && DeservedOutside(files, deserved, originals.Keys + stuck)
      && (control.trial ==> AllPerformance(files, originals.Keys))
      && SamplesOk(control, trialBaseline, evidence)
      && writes == |log| && StuckBy(stuck, {}, faults, log, 0)
    }

    constructor (files: Governors, faults: nat -> bool)
      ensures Valid() && this.files == files && this.faults == faults
      ensures control == IDLE && deserved == files && stuck == {} && evidence == [] && log == []
    {
      this.files, this.faults := files, faults;
      writes, log := 0, [];
      control := IDLE;
      originals := map[];
      deserved := files;
      stuck := {};
      evidence := [];
      trialBaseline := [];
    }

    method Write(path: string, governor: string) returns (ok: bool)
      requires writes == |log|
      modifies `files, `writes, `log
      ensures writes == |log| && log == old(log) + [(path, governor)]
      ensures ok == !faults(|old(log)|)
      ensures files == if ok then old(files)[path := governor] else old(files)
    {
      ok := !faults(writes);
      if ok { files := files[path := governor]; }
      writes := writes + 1;
      log := log + [(path, governor)];
    }

    /** rollback: every original is written back. A file is stuck only if its own write failed. */
    method Rollback()
      requires Tame(files, deserved) && Remembered(originals, deserved, stuck)
               && DeservedOutside(files, deserved, originals.Keys + stuck)
      requires writes == |log|
      modifies `files, `control, `originals, `stuck, `writes, `log
      ensures originals == map[] && control == old(control).(trial := false)
      ensures Tame(files, deserved) && DeservedOutside(files, deserved, stuck) && old(stuck) <= stuck
      ensures writes == |log| && old(log) <= log && StuckBy(stuck, old(stuck), faults, log, |old(log)|)
      ensures |log| == |old(log)| + |old(originals)|
    {
      hide Tame, Remembered, DeservedOutside, FailedToRestore;
      var left := originals.Keys;
      while left != {}
        invariant left <= originals.Keys && originals == old(originals) && control == old(control)
                  && old(stuck) <= stuck
        invariant writes == |log| && old(log) <= log && StuckBy(stuck, old(stuck), faults, log, |old(log)|)
        invariant |log| + |left| == |old(log)| + |old(originals)|
        invariant Tame(files, deserved) && Remembered(originals, deserved, stuck)
                  && DeservedOutside(files, deserved, left + stuck)
        decreases |left|
      {
        var path :| path in left;
        ghost var before, earlier := files, log;
        var ok := Write(path, originals[path]);
        WrittenBack(before, deserved, originals, stuck, left, path, ok);
        KeysTame(files, deserved);
        ghost var lost := files[path] != deserved[path];
        GivenUp(before, deserved, originals, stuck, old(stuck), faults, earlier, |old(log)|, path);
        stuck := if lost then stuck + {path} else stuck;
        left := left - {path};
      }
      assert left + stuck == stuck;
      originals := map[];
      control := control.(trial := false);
    }

    /** One write back, seen from what is stuck. */
    static lemma GivenUp(files: Governors, deserved: Governors, originals: Governors, stuck: set<string>,
        was: set<string>,
                         faults: nat -> bool, log: seq<(string, string)>, from: nat, p: string)
      requires Tame(files, deserved) && Remembered(originals, deserved, stuck) && p in originals
      requires from <= |log| && StuckBy(stuck, was, faults, log, from)
      ensures var after := if faults(|log|) then files else files[p := originals[p]];
              StuckBy(if p in after && p in deserved
                  && after[p] != deserved[p] then stuck + {p} else stuck, was, faults, log + [(p, originals[p])], from)
    {
      var more := log + [(p, originals[p])];
      forall q | q in stuck && q !in was ensures FailedToRestore(faults, more, from, q) {
        var i :| from <= i < |log| && faults(i) && log[i].0 == q && log[i].1 != PERFORMANCE;
        assert more[i] == log[i];
      }
      if p !in stuck && faults(|log|) && files[p] != deserved[p] {
        assert more[|log|] == (p, originals[p]);
        assert FailedToRestore(faults, more, from, p);
      }
    }

    static lemma KeysTame(files: Governors, deserved: Governors)
      requires Tame(files, deserved)
      ensures files.Keys == deserved.Keys
    {
    }

    /** startGovernorTrial, on the governors that could be read. */
    method StartTrial(governors: Governors) returns (ok: bool)
      requires Tame(files, deserved) && governors.Keys <= files.Keys && writes == |log|
      modifies `files, `originals, `writes, `log
      ensures writes == |log| && old(log) <= log && (ok <==> Quiet(faults, |old(log)|, |log|))
      ensures originals == governors && Tame(files, deserved) && files.Keys == old(files).Keys
      ensures forall q :: q in files && q !in governors ==> files[q] == old(files)[q]
      ensures ok ==> AllPerformance(files, governors.Keys)
    {
      hide Tame, Quiet;
      originals := governors;
      NothingYet(faults, |log|);
      var left := governors.Keys;
      while left != {}
        invariant left <= governors.Keys && originals == governors && files.Keys == old(files).Keys
        invariant writes == |log| && old(log) <= log && Quiet(faults, |old(log)|, |log|)
        invariant Tame(files, deserved) && AllPerformance(files, governors.Keys - left)
        invariant forall q :: q in files && q !in governors.Keys ==> files[q] == old(files)[q]
        decreases |left|
      {
        var path :| path in left;
        Raised(files, deserved, old(files), governors.Keys, left, path);
        OneMore(faults, |old(log)|, |log|);
        ok := Write(path, PERFORMANCE);
        if !ok { return; }
        left := left - {path};
      }
      assert governors.Keys - left == governors.Keys;
      ok := true;
    }

    static method AnyCandidate(governors: Governors) returns (candidate: bool)
      ensures candidate <==> HasCandidate(governors)
    {
      var left := governors.Keys;
      while left != {}
        invariant left <= governors.Keys
        invariant forall p :: p in governors && p !in left ==> governors[p] == PERFORMANCE
        decreases |left|
      {
        var path :| path in left;
        if governors[path] != PERFORMANCE { return true; }
        left := left - {path};
      }
      candidate := false;
    }

    /** The start of a trial, undone at once if some governor cannot be written. */
    method OpenTrial(governors: Governors) returns (ok: bool)
      requires Valid() && !control.trial && Stable(control.baseline)
      requires governors.Keys <= files.Keys && forall p :: p in governors ==> governors[p] == files[p]
      modifies this
      ensures Valid() && deserved == old(deserved) && evidence == old(evidence) && old(stuck) <= stuck
      ensures old(log) <= log && StuckBy(stuck, old(stuck), faults, log, |old(log)|)
              && (ok <==> Quiet(faults, |old(log)|, |log|))
      ensures ok ==> originals == governors
      ensures var e := old(control).(baselineRate := Average(old(control.baseline)));
              control == if ok then e.(after := [], trial := true) else e
    {
      hide Stable, Average, Convincing, Tame, AllPerformance, FailedToRestore, StuckBy, Quiet, Remembered,
           DeservedOutside;
      StableSize(control.baseline);
      var mean := AverageOf(control.baseline);
      control := control.(baselineRate := mean);
      NothingRemembered(deserved, stuck);
      assert originals.Keys + stuck == stuck;
      ok := StartTrial(governors);
      ghost var started := log;
      ReadIsDeserved(old(files), files, deserved, stuck, governors);
      NothingMoreStuck(stuck, faults, log, |old(log)|);
      StuckOver({}, stuck, stuck, faults, old(log), started, 0);
      if !ok {
        Rollback();
        QuietBoth(faults, |old(log)|, |started|, |log|);
        StuckOver(old(stuck), old(stuck), stuck, faults, started, log, |old(log)|);
        StuckOver({}, old(stuck), stuck, faults, started, log, 0);
        NothingRemembered(deserved, stuck);
        assert originals.Keys + stuck == stuck;
        return;
      }
      trialBaseline := control.baseline;
      control := control.(after := [], trial := true);
    }

    /** What is read outside a trial is what the files deserve, except where they are stuck. */
    static lemma ReadIsDeserved(files: Governors, after: Governors, deserved: Governors, stuck: set<string>,
        governors: Governors)
      requires Tame(files, deserved) && DeservedOutside(files, deserved, stuck)
      requires governors.Keys <= files.Keys && forall p :: p in governors ==> governors[p] == files[p]
      requires after.Keys == files.Keys && forall q :: q in after && q !in governors ==> after[q] == files[q]
      ensures Remembered(governors, deserved, stuck) && DeservedOutside(after, deserved, governors.Keys + stuck)
    {
    }

    static lemma StableSize(v: seq<real>)
      requires Stable(v) && |v| <= SAMPLES
      ensures |v| == SAMPLES && v != []
    {
    }

    /** The end of a trial with three stable samples: the change is kept or undone. */
    method CloseTrial() returns (kept: bool)
      requires Valid() && control.trial && Stable(control.after)
      modifies this
      ensures Valid() && old(stuck) <= stuck && old(log) <= log && StuckBy(stuck, old(stuck), faults, log, |old(log)|)
      ensures kept <==> Improves(old(control.baselineRate), Average(old(control.after)))
      ensures control == old(control).(trial := false, baseline := [Average(old(control.after))], after := [])
      ensures kept ==> Promoted(deserved, old(deserved), old(originals).Keys)
      ensures kept ==>
                && files == old(files) && log == old(log)
                && evidence == old(evidence) + [Evidence(old(control.key), old(trialBaseline), old(control.after))]
      ensures !kept ==> evidence == old(evidence) && deserved == old(deserved)
    {
      hide Stable, Average, Quiet, FailedToRestore, StuckBy, Tame, DeservedOutside, Remembered, AllPerformance,
           Promoted;
      StableSize(control.after);
      var rate := AverageOf(control.after);
      kept := Improves(control.baselineRate, rate);
      if kept {
        evidence := evidence + [Evidence(control.key, trialBaseline, control.after)];
        deserved := map p | p in deserved :: if p in originals then PERFORMANCE else deserved[p];
        assert Promoted(deserved, old(deserved), originals.Keys) by { Promotes(old(deserved), deserved, originals); }
        TrialDeserved(files, old(deserved), deserved, originals, stuck);
        originals := map[];
        NothingRemembered(deserved, stuck);
        assert originals.Keys + stuck == stuck;
        control := control.(trial := false);
        NothingMoreStuck(stuck, faults, log, |log|);
      } else {
        Rollback();
        StuckOver({}, old(stuck), stuck, faults, old(log), log, 0);
        NothingRemembered(deserved, stuck);
        assert originals.Keys + stuck == stuck;
      }
      control := control.(baseline := [rate], after := []);
    }

    static lemma Promotes(before: Governors, deserved: Governors, originals: Governors)
      requires deserved == map p | p in before :: if p in originals then PERFORMANCE else before[p]
      ensures Promoted(deserved, before, originals.Keys)
    {
    }

    static lemma NothingRemembered(deserved: Governors, stuck: set<string>)
      ensures Remembered(map[], deserved, stuck)
    {
    }

    /** An accepted trial leaves every file as it now deserves. */
    static lemma TrialDeserved(files: Governors, before: Governors, deserved: Governors, originals: Governors,
        stuck: set<string>)
      requires Tame(files, before) && DeservedOutside(files, before, originals.Keys + stuck)
               && AllPerformance(files, originals.Keys)
      requires Promoted(deserved, before, originals.Keys)
      ensures Tame(files, deserved) && DeservedOutside(files, deserved, stuck)
    {
    }

    method NewKey(key: string)
      requires Valid()
      modifies this
      ensures Valid() && control == WithKey(old(control), key) && deserved == old(deserved) && evidence == old(evidence)
      ensures old(stuck) <= stuck && old(log) <= log && StuckBy(stuck, old(stuck), faults, log, |old(log)|)
      ensures key == old(control.key) ==>
              files == old(files) && log == old(log) && originals == old(originals) && stuck == old(stuck)
    {
      hide Stable, Average, Convincing, Tame, FailedToRestore, StuckBy, AllPerformance;
      NothingMoreStuck(stuck, faults, log, |log|);
      if key != control.key {
        Rollback();
        StuckOver({}, old(stuck), stuck, faults, old(log), log, 0);
        NothingRemembered(deserved, stuck);
        assert originals.Keys + stuck == stuck;
        control := control.(key := key, baseline := [], after := []);
      }
    }

    /** advance, on the governors that could be read. A trial opens if and only if every one of them can be set. */
    method Advance(key: string, hashrate: real, paths: set<string>) returns (verdict: Verdict, ghost wrote: bool)
      requires Valid()
      modifies this
      ensures Valid() && old(stuck) <= stuck
      ensures old(log) <= log && StuckBy(stuck, old(stuck), faults, log, |old(log)|)
      ensures (control, verdict) == Decide(old(control),
              Beat(key, hashrate, true, true, HasCandidate(Readable(old(files), paths))), wrote)
      ensures verdict.Opened? || verdict.Failed? ==> (wrote <==> Quiet(faults, |old(log)|, |log|))
      ensures verdict.Opened? ==> originals == Readable(old(files), paths)
      ensures !verdict.Accepted? ==> evidence == old(evidence) && deserved == old(deserved)
      ensures verdict.Accepted? ==> |evidence| == |old(evidence)| + 1 && evidence[..|old(evidence)|] == old(evidence)
      ensures verdict.Accepted? ==> Promoted(deserved, old(deserved), old(originals).Keys)
    {
      hide Stable, Average, Convincing, Improves, AppendRecent, HasCandidate, FailedToRestore;
      wrote := true;
      verdict := if control.trial && key != control.key then Abandoned else Nothing;
      NewKey(key);
      if !control.trial {
        RecentSize(control.baseline, hashrate);
        control := control.(baseline := AppendRecent(control.baseline, hashrate));
        var stable := IsStable(control.baseline);
        if !stable { return; }
        if key != old(control.key) { OneIsNotStable(hashrate); }
        verdict, wrote := ConsiderTrial(paths);
        return;
      }
      RecentSize(control.after, hashrate);
      control := control.(after := AppendRecent(control.after, hashrate));
      var stable := IsStable(control.after);
      if !stable { return; }
      var kept := CloseTrial();
      verdict := if kept then Accepted else Rejected;
    }

    /** With a stable baseline: a trial, if some governor is not "performance" yet. */
    method ConsiderTrial(paths: set<string>) returns (verdict: Verdict, ghost wrote: bool)
      requires Valid() && !control.trial && Stable(control.baseline)
      modifies this
      ensures Valid() && deserved == old(deserved) && evidence == old(evidence) && old(stuck) <= stuck
      ensures old(log) <= log && StuckBy(stuck, old(stuck), faults, log, |old(log)|)
      ensures wrote <==> Quiet(faults, |old(log)|, |log|)
      ensures var e := old(control).(baselineRate := Average(old(control.baseline)));
              (control, verdict) == if !HasCandidate(Readable(old(files), paths)) then (e, Nothing)
                                    else if wrote then (e.(after := [], trial := true), Opened) else (e, Failed)
      ensures verdict.Opened? ==> originals == Readable(old(files), paths)
    {
      hide Stable, Average, HasCandidate, FailedToRestore, Convincing;
      wrote := true;
      var governors := Readable(files, paths);
      var candidate := AnyCandidate(governors);
      if !candidate {
        StableSize(control.baseline);
        var mean := AverageOf(control.baseline);
        control := control.(baselineRate := mean);
        return Nothing, true;
      }
      var ok := OpenTrial(governors);
      wrote := ok;
      verdict := if ok then Opened else Failed;
    }

    static lemma OneIsNotStable(hashrate: real)
      ensures !Stable(AppendRecent([], hashrate))
    {
    }

    static lemma RecentSize(v: seq<real>, x: real)
      requires |v| <= SAMPLES
      ensures |AppendRecent(v, x)| <= SAMPLES
    {
    }

    /** Outside a trial the files are as they deserve, but for what is stuck. */
    lemma NothingOpen()
      requires Valid()
      ensures !control.trial ==>
              DeservedOutside(files, deserved, stuck) && (AllRestored(faults, log) ==> files == deserved)
    {
      if !control.trial {
        assert originals.Keys + stuck == stuck;
        NothingStuck(files, deserved, stuck, faults, log);
      }
    }

    /** An open trial is undone and the samples forgotten. */
    method Pause(key: string)
      requires Valid()
      modifies this
      ensures Valid() && old(stuck) <= stuck && deserved == old(deserved) && evidence == old(evidence)
      ensures control == old(control).(key := key, baseline := [], after := [], trial := false)
      ensures old(log) <= log && StuckBy(stuck, old(stuck), faults, log, |old(log)|)
    {
      hide Stable, Average, Convincing, Tame, FailedToRestore, StuckBy, AllPerformance;
      NothingMoreStuck(stuck, faults, log, |log|);
      if control.trial {
        Rollback();
        StuckOver({}, old(stuck), stuck, faults, old(log), log, 0);
        NothingRemembered(deserved, stuck);
        assert originals.Keys + stuck == stuck;
      }
      control := control.(key := key, baseline := [], after := []);
    }

    /**
     update: one heartbeat. A pause, a transition or a change of workload ends an open trial and
     forgets the samples. Where no attempt to write an old governor back ever failed, the files
     hold outside a trial exactly what they deserve.
     */
    method Update(running: bool, gpuCount: nat, threads: nat, hashrate: real, transition: bool, key: string,
        paths: set<string>)
      returns (verdict: Verdict, ghost wrote: bool)
      requires Valid()
      modifies this
      ensures Valid() && old(stuck) <= stuck
      ensures old(log) <= log && StuckBy(stuck, old(stuck), faults, log, |old(log)|)
      ensures var b := Beat(key, hashrate, running && gpuCount == 0 && (threads > 0 || hashrate > 0.0),
                            !transition && key != "|" && hashrate > 0.0, HasCandidate(Readable(old(files), paths)));
              (control, verdict) == Decide(old(control), b, wrote)
      ensures verdict.Opened? || verdict.Failed? ==> (wrote <==> Quiet(faults, |old(log)|, |log|))
      ensures verdict.Opened? ==> originals == Readable(old(files), paths)
      ensures !control.trial ==> DeservedOutside(files, deserved, stuck)
      ensures !control.trial && AllRestored(faults, log) ==> files == deserved
      ensures !verdict.Accepted? ==> evidence == old(evidence) && deserved == old(deserved)
      ensures verdict.Accepted? ==> |evidence| == |old(evidence)| + 1 && evidence[..|old(evidence)|] == old(evidence)
      ensures verdict.Accepted? ==> Promoted(deserved, old(deserved), old(originals).Keys)
    {
      hide Stable, Average, Improves, AppendRecent, WithKey, HasCandidate, StuckBy, Promoted, Valid, Quiet,
           DeservedOutside, AllRestored;
      var cpuOnly := running && gpuCount == 0 && (threads > 0 || hashrate > 0.0);
      var steady := !transition && key != "|" && hashrate > 0.0;
      if !cpuOnly || !steady {
        wrote := true;
        verdict := if control.trial then Abandoned else Nothing;
        Pause(key);
      } else {
        verdict, wrote := Advance(key, hashrate, paths);
      }
      NothingOpen();
    }
  }

  // ----- what a run of heartbeats shows -----

  lemma {:induction false} SumOf(v: seq<real>, x: real)
    requires forall i :: 0 <= i < |v| ==> v[i] == x
    ensures Sum(v) == x * |v| as real
  {
    if v != [] { SumOf(v[..|v| - 1], x); }
  }

  /** Three equal positive readings are stable, so a constant hashrate always leads on. */
  lemma ConstantIsStable(x: real)
    requires x > 0.0
    ensures Stable([x, x, x]) && Average([x, x, x]) == x
  {
    SumOf([x, x, x], x);
  }

  /** A constant hashrate never keeps a change: a trial under it is rejected. */
  lemma NoGainNoChange(c: Control, b: Beat, wrote: bool, x: real)
    requires c.trial && b.measurable && b.steady && b.key == c.key && b.hashrate == x && x > 0.0
    requires c.baselineRate == x && c.after == [x, x]
    ensures Decide(c, b, wrote).1 == Rejected
  {
    ConstantIsStable(x);
    assert AppendRecent([x, x], x) == [x, x, x];
  }

  /** One heartbeat of a run: what came in, what was decided, and what was known then. */
  datatype Note = Note(beat: Beat, verdict: Verdict, control: Control)

  function Noted(c: Control, b: Beat, wrote: bool): Note {
    Note(b, Decide(c, b, wrote).1, Decide(c, b, wrote).0)
  }

  function Run(c: Control, notes: seq<Note>, beats: seq<(Beat, bool)>): (Control, seq<Note>)
    decreases |beats|
  {
    if beats == [] then (c, notes)
    else
      var n := Noted(c, beats[0].0, beats[0].1);
      Run(n.control, notes + [n], beats[1..])
  }

  function Rates(notes: seq<Note>): seq<real> {
    if notes == [] then [] else AppendRecent(Rates(notes[..|notes| - 1]), notes[|notes| - 1].beat.hashrate)
  }

  /** Steady heartbeats of one workload, from o to n. */
  predicate OneWorkload(notes: seq<Note>, o: nat, n: nat, key: string) {
    forall i :: o <= i <= n && i < |notes| ==>
        notes[i].beat.key == key && notes[i].beat.measurable && notes[i].beat.steady
  }

  /** A trial was opened at o on a stable baseline, and every heartbeat since went into its samples. */
  predicate OpenSince(c: Control, notes: seq<Note>, o: nat) {
    && o < |notes| && notes[o].verdict.Opened?
    && Stable(notes[o].control.baseline) && c.baselineRate == Average(notes[o].control.baseline)
    && OneWorkload(notes, o, |notes|, c.key) && c.after == Rates(notes[o + 1..])
  }

  predicate TrialExplained(c: Control, notes: seq<Note>) {
    c.trial ==> exists o :: 0 <= o < |notes| && OpenSince(c, notes, o)
  }

  /**
   A verdict on a trial: one workload throughout, three stable samples since the opening, and accepted
   exactly when their mean is at least 1 % above the baseline's.
   */
  predicate Earned(notes: seq<Note>, n: nat)
    requires n < |notes|
  {
    exists o :: 0 <= o < n && Earns(notes, o, n)
  }

  predicate Earns(notes: seq<Note>, o: nat, n: nat)
    requires o < n < |notes|
  {
    var rates := Rates(notes[o + 1..n + 1]);
    && notes[o].verdict.Opened? && Stable(notes[o].control.baseline)
    && OneWorkload(notes, o, n, notes[n].beat.key)
    && Stable(rates)
    && (notes[n].verdict.Accepted? <==> Average(rates) >= Average(notes[o].control.baseline) * 1.01)
  }

  predicate Judges(v: Verdict) { v.Accepted? || v.Rejected? }

  predicate AllEarned(notes: seq<Note>) {
    forall n :: 0 <= n < |notes| && Judges(notes[n].verdict) ==> Earned(notes, n)
  }

  lemma DecideOpens(c: Control, b: Beat, wrote: bool)
    ensures var (d, v) := Decide(c, b, wrote);
            && (v.Opened? ==>
                d.trial && Stable(d.baseline) && d.baselineRate == Average(d.baseline) && d.after == []
                && d.key == b.key && b.measurable && b.steady)
            && (d.trial && !v.Opened? ==> c.trial && b.measurable && b.steady && b.key == c.key
                                          && d == c.(after := AppendRecent(c.after, b.hashrate)))
            && (Judges(v) ==>
                c.trial && b.measurable && b.steady && b.key == c.key && Stable(AppendRecent(c.after, b.hashrate)))
            && (Judges(v) && c.baselineRate > 0.0 ==>
                (v.Accepted? <==> Average(AppendRecent(c.after, b.hashrate)) >= c.baselineRate * 1.01))
  {
    hide Stable, Average, AppendRecent;
  }

  lemma RatesGrow(notes: seq<Note>, n: Note, o: nat)
    requires o < |notes|
    ensures Rates((notes + [n])[o + 1..]) == AppendRecent(Rates(notes[o + 1..]), n.beat.hashrate)
  {
    hide AppendRecent;
    assert (notes + [n])[o + 1..] == notes[o + 1..] + [n];
  }

  lemma EarnedStays(notes: seq<Note>, m: Note, n: nat)
    requires n < |notes| && Earned(notes, n)
    ensures Earned(notes + [m], n)
  {
    hide Average, Rates;
    var more := notes + [m];
    var o :| 0 <= o < n && Earns(notes, o, n);
    assert more[o + 1..n + 1] == notes[o + 1..n + 1] && more[o] == notes[o] && more[n] == notes[n];
    assert OneWorkload(more, o, n, more[n].beat.key);
    assert Earns(more, o, n);
  }

  lemma BeatKeepsReasons(c: Control, notes: seq<Note>, b: Beat, wrote: bool)
    requires TrialExplained(c, notes) && AllEarned(notes)
    ensures var n := Noted(c, b, wrote); TrialExplained(n.control, notes + [n]) && AllEarned(notes + [n])
  {
    hide Decide, Stable, Average, Rates, AppendRecent, Earned;
    DecideOpens(c, b, wrote);
    var n := Noted(c, b, wrote);
    var more := notes + [n];
    if n.verdict.Opened? {
      assert more[|notes|] == n && more[|notes| + 1..] == [];
      assert Rates([]) == [] by { EmptyRates(); }
      assert OpenSince(n.control, more, |notes|);
    } else if c.trial {
      var o :| 0 <= o < |notes| && OpenSince(c, notes, o);
      RatesGrow(notes, n, o);
      assert more[o] == notes[o];
      if n.control.trial { assert OpenSince(n.control, more, o); }
      if Judges(n.verdict) { JudgedIsEarned(c, notes, n, o); }
    }
    forall k | 0 <= k < |more| && Judges(more[k].verdict) ensures Earned(more, k) {
      if k < |notes| {
        assert more[k] == notes[k];
        EarnedStays(notes, n, k);
      }
    }
  }

  lemma EmptyRates()
    ensures Rates([]) == []
  {
  }

  lemma JudgedIsEarned(c: Control, notes: seq<Note>, n: Note, o: nat)
    requires OpenSince(c, notes, o) && n.beat.key == c.key && n.beat.measurable && n.beat.steady
    requires var after := AppendRecent(c.after, n.beat.hashrate);
             Stable(after) && (c.baselineRate > 0.0 ==>
               (n.verdict.Accepted? <==> Average(after) >= c.baselineRate * 1.01))
    ensures Earned(notes + [n], |notes|)
  {
    var more := notes + [n];
    assert c.baselineRate > 0.0;
    hide Stable, Average, Rates, AppendRecent;
    RatesGrow(notes, n, o);
    assert more[o + 1..|notes| + 1] == more[o + 1..] && more[o] == notes[o] && more[|notes|] == n;
    assert OneWorkload(more, o, |notes|, n.beat.key);
    assert Earns(more, o, |notes|);
  }

  lemma {:induction false} RunKeepsReasons(c: Control, notes: seq<Note>, beats: seq<(Beat, bool)>)
    requires TrialExplained(c, notes) && AllEarned(notes)
    ensures AllEarned(Run(c, notes, beats).1)
    decreases |beats|
  {
    hide Noted, TrialExplained, AllEarned;
    if beats != [] {
      BeatKeepsReasons(c, notes, beats[0].0, beats[0].1);
      var n := Noted(c, beats[0].0, beats[0].1);
      RunKeepsReasons(n.control, notes + [n], beats[1..]);
    }
  }

  /**
   In every run a trial is judged on steady samples of one workload since its opening, and the change
   is kept exactly when they show the gain.
   */
  lemma ChangesAreEarned(beats: seq<(Beat, bool)>, n: nat)
    requires n < |Run(IDLE, [], beats).1| && Judges(Run(IDLE, [], beats).1[n].verdict)
    ensures Earned(Run(IDLE, [], beats).1, n)
  {
    hide Run;
    RunKeepsReasons(IDLE, [], beats);
  }

  /** When a trial opens, and when it is judged. */
  lemma TrialMovesIff(c: Control, b: Beat, wrote: bool)
    requires b.measurable && b.steady && b.key == c.key
    ensures var (d, v) := Decide(c, b, wrote);
            && (!c.trial ==> (v.Opened? <==> Stable(AppendRecent(c.baseline, b.hashrate)) && b.candidate && wrote))
            && (c.trial ==> (Judges(v) <==> Stable(AppendRecent(c.after, b.hashrate))))
  {
    hide Stable, Average, AppendRecent;
  }

  /** Three samples or more with a positive mean, none more than 3 % of it away. */
  lemma StableMeans(v: seq<real>, mean: real)
    requires mean * |v| as real == Sum(v)
    ensures Stable(v) <==>
              && |v| >= 3 && mean > 0.0
              && forall i :: 0 <= i < |v| ==> 0.97 * mean <= v[i] <= 1.03 * mean
  {
    hide Sum;
    if |v| >= 3 {
      assert Average(v) == mean;
      if mean > 0.0 {
        forall i | 0 <= i < |v| ensures Deviation(v[i], mean) <= 0.03 <==> 0.97 * mean <= v[i] <= 1.03 * mean {
          DeviationMeans(v[i], mean);
        }
      }
    }
  }

  lemma DeviationMeans(x: real, mean: real)
    requires mean > 0.0
    ensures Deviation(x, mean) <= 0.03 <==> 0.97 * mean <= x <= 1.03 * mean
  {
    var away := if x >= mean then x - mean else mean - x;
    AtMost(away, mean);
    if x >= mean {
      assert away <= 0.03 * mean <==> x <= 1.03 * mean;
    } else {
      assert away <= 0.03 * mean <==> 0.97 * mean <= x;
    }
  }

  lemma AtMost(away: real, mean: real)
    requires mean > 0.0
    ensures away / mean <= 0.03 <==> away <= 0.03 * mean
  {
    var d := away / mean;
    assert away == d * mean;
    if d <= 0.03 {
      TimesMean(d, 0.03, mean);
    } else {
      TimesMean(0.03, d, mean);
      assert (d - 0.03) * mean > 0.0;
    }
  }

  lemma TimesMean(a: real, b: real, mean: real)
    requires mean > 0.0 && a <= b
    ensures a * mean <= b * mean
  {
  }
}
