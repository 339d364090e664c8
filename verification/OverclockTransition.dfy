/**
 Moving a rig with NVIDIA GPUs from one overclock profile to the next: reset what the next
 profile no longer sets, apply it, and re-apply the previous one when that fails.
 */
module OverclockTransition {
  import opened Tuning
  import opened Faults

  type Registers = map<(int, Field), int>

  const UNSET := Setting("", 0, 0, 0, 0, 0, 0)

  /** What an applied profile amounts to on a rig whose GPUs are all NVIDIA. */
  function Effective(p: Profile): seq<Setting> {
    if p.id != "" && p.vendor == "NVIDIA" then p.settings else []
  }

  /** The setting of the next profile that takes over from one selector. */
  function Replacement(selector: string, next: seq<Setting>, found: Setting): Setting {
    if next == [] then found
    else if next[0].selector == selector then next[0]
    else Replacement(selector, next[1..], if next[0].selector == "*"
        && next[0].power > 0 then found.(power := next[0].power) else found)
  }

  function Kept(was: int, now: int): int {
    if was != 0 && now == 0 then was else 0
  }

  function RemovedFrom(was: Setting, next: seq<Setting>): Setting {
    var r := Replacement(was.selector, next, UNSET);
    Setting(was.selector, Kept(was.coreClock, r.coreClock), Kept(was.coreOffset, r.coreOffset),
            Kept(was.memoryClock, r.memoryClock), Kept(was.memoryOffset, r.memoryOffset),
            Kept(was.power, r.power), Kept(was.fan, r.fan))
  }

  function RemovedAll(previous: seq<Setting>, next: seq<Setting>): seq<Setting> {
    if previous == [] then []
    else
      var n := |previous| - 1;
      var removed := RemovedFrom(previous[n], next);
      RemovedAll(previous[..n], next) + (if removed != UNSET.(selector := previous[n].selector) then [removed] else [])
  }

  function Removed(previous: Profile, next: Profile): Profile {
    var settings := RemovedAll(previous.settings, next.settings);
    Profile(if settings == [] then "" else previous.id, "", previous.vendor, settings)
  }

  /** removedOverclockSettings: a search with an early exit inside a pass over the previous settings. */
  method RemovedSettings(previous: Profile, next: Profile) returns (r: Profile)
    ensures r == Removed(previous, next)
  {
    var settings: seq<Setting> := [];
    for i := 0 to |previous.settings|
      invariant settings == RemovedAll(previous.settings[..i], next.settings)
    {
      var was := previous.settings[i];
      var replacement := UNSET;
      var j := 0;
      while j < |next.settings|
        invariant 0 <= j <= |next.settings|
        invariant Replacement(was.selector, next.settings, UNSET) == Replacement(was.selector, next.settings[j..],
                  replacement)
      {
        var candidate := next.settings[j];
        assert next.settings[j..][1..] == next.settings[j + 1..];
        if candidate.selector == was.selector {
          replacement := candidate;
          break;
        }
        if candidate.selector == "*" && candidate.power > 0 {
          replacement := replacement.(power := candidate.power);
        }
        j := j + 1;
      }
      assert replacement == Replacement(was.selector, next.settings, UNSET);
      var setting := UNSET.(selector := was.selector);
      if was.coreClock != 0 && replacement.coreClock == 0 { setting := setting.(coreClock := was.coreClock); }
      if was.memoryClock != 0 && replacement.memoryClock == 0 { setting := setting.(memoryClock := was.memoryClock); }
      if was.coreOffset != 0 && replacement.coreOffset == 0 { setting := setting.(coreOffset := was.coreOffset); }
      if was.memoryOffset != 0 && replacement.memoryOffset == 0 {
        setting := setting.(memoryOffset := was.memoryOffset);
      }
      if was.power != 0 && replacement.power == 0 { setting := setting.(power := was.power); }
      if was.fan != 0 && replacement.fan == 0 { setting := setting.(fan := was.fan); }
      if setting != UNSET.(selector := was.selector) {
        settings := settings + [setting];
      }
      assert previous.settings[..i + 1][..i] == previous.settings[..i];
    }
    assert previous.settings[..|previous.settings|] == previous.settings;
    r := Profile(if settings == [] then "" else previous.id, "", previous.vendor, settings);
  }

  predicate Resets(s: Setting, g: int, f: Field) {
    Selects(s.selector, g) && Value(s, f) != 0
  }

  predicate ResetBy(settings: seq<Setting>, g: int, f: Field) {
    exists i :: 0 <= i < |settings| && Resets(settings[i], g, f)
  }

  datatype Outcome =
    | Unchanged     // the profiles were equal
    | Refused       // preflight failed
    | ResetFailed   // a reset failed; nothing was re-applied
    | Applied
    | RolledBack    // applying failed; the previous profile was applied again
    | Broken        // that failed as well

  /**
   The course of a transition: the numbers of the first command after the reset and of the first
   after applying the next profile, and how many settings were applied in full before a failure,
   of the list being reset or the next profile, and of the previous profile.
   */
  datatype Trail = Trail(cleared: nat, failed: nat, reached: nat, again: nat)

  /** Whether applying, or resetting, the setting sends any command. */
  predicate Tunes(s: Setting) {
    s.power > 0 || s.coreClock > 0 || s.memoryClock > 0 || s.coreOffset != 0 || s.memoryOffset != 0
  }

  predicate Clears(s: Setting) {
    s.power != 0 || s.coreClock != 0 || s.memoryClock != 0 || s.coreOffset != 0 || s.memoryOffset != 0
  }

  /** Applying a setting, and resetting it, sends a command exactly when it has a control to set, or to reset. */
  lemma ActsIff(s: Setting)
    ensures Tunes(s) <==> exists f: Field :: Writes(s, f)
    ensures Clears(s) <==> exists f: Field :: Value(s, f) != 0
  {
    if Tunes(s) {
      assert Writes(s, CoreClock) || Writes(s, MemoryClock) || Writes(s, CoreOffset) || Writes(s, MemoryOffset)
             || Writes(s, Power);
    }
    if Clears(s) {
      assert Value(s, CoreClock) != 0 || Value(s, MemoryClock) != 0 || Value(s, CoreOffset) != 0
             || Value(s, MemoryOffset) != 0 || Value(s, Power) != 0;
    }
  }

  /** A GPU reports a limit, and one within the maximum. */
  predicate Within(gpu: Gpu, maximum: int) {
    0.0 < gpu.powerLimit <= maximum as real
  }

  predicate Listed(readings: seq<Gpu>, g: int) {
    exists i :: 0 <= i < |readings| && readings[i].index == g
  }

  /** Some reading of GPU g asks for its limit to be set. */
  predicate Lowered(readings: seq<Gpu>, maximum: int, g: int) {
    exists i :: 0 <= i < |readings| && readings[i].index == g && !Within(readings[i], maximum)
  }

  lemma LoweredMore(readings: seq<Gpu>, i: nat, maximum: int)
    requires i < |readings|
    ensures forall g :: Lowered(readings[..i + 1], maximum, g) <==>
              Lowered(readings[..i], maximum, g) || (readings[i].index == g && !Within(readings[i], maximum))
    ensures forall g :: Lowered(readings[..i + 1], maximum, g) ==> Lowered(readings, maximum, g)
  {
    forall g
      ensures Lowered(readings[..i + 1], maximum, g) <==>
                Lowered(readings[..i], maximum, g) || (readings[i].index == g && !Within(readings[i], maximum))
      ensures Lowered(readings[..i + 1], maximum, g) ==> Lowered(readings, maximum, g)
    {
      var more := readings[..i + 1];
      assert forall j :: 0 <= j < i ==> more[j] == readings[..i][j] == readings[j];
      if Lowered(readings[..i], maximum, g) {
        var j :| 0 <= j < i && readings[..i][j].index == g && !Within(readings[..i][j], maximum);
        assert more[j] == readings[j];
      }
      if readings[i].index == g && !Within(readings[i], maximum) {
        assert more[i] == readings[i];
      }
    }
  }

  /** The tuning registers of a rig's GPUs. Commands are numbered; any may fail, and then changes nothing. */
  class NvidiaHost {
    const gpus: seq<int>
    const defaultPower: map<int, int>
    /** Which commands fail. */
    const faults: nat -> bool
    var registers: Registers
    var commands: nat

    ghost predicate Valid()
      reads this
    {
      && (forall i :: 0 <= i < |gpus| ==> gpus[i] in defaultPower)
      && (forall i, j :: 0 <= i < j < |gpus| ==> gpus[i] != gpus[j])
      && (forall g, f: Field :: g in gpus ==> (g, f) in registers)
    }

    function Default(g: int, f: Field): int {
      if f.Power? && g in defaultPower then defaultPower[g] else 0
    }

    constructor (gpus: seq<int>, defaultPower: map<int, int>, faults: nat -> bool)
      requires forall i :: 0 <= i < |gpus| ==> gpus[i] in defaultPower
      requires forall i, j :: 0 <= i < j < |gpus| ==> gpus[i] != gpus[j]
      ensures Valid() && this.gpus == gpus && this.defaultPower == defaultPower && this.faults == faults
      ensures forall g, f: Field :: g in gpus ==> registers[(g, f)] == Default(g, f)
    {
      this.gpus := gpus;
      this.defaultPower, this.faults, commands := defaultPower, faults, 0;
      this.registers := map g, f: Field | g in gpus :: (g, f) := if f.Power?
          && g in defaultPower then defaultPower[g] else 0;
    }

    // ----- what can be asked of this hardware -----

    /** The GPUs a setting is for are there, unless it leaves them alone. */
    predicate Reachable(s: Setting, acts: bool) {
      && ValidSelector(s.selector) && !(IsWildcard(s.selector) && |gpus| == 0)
      && (acts && !IsWildcard(s.selector) ==> ParseInt(s.selector) in gpus)
    }

    predicate Applicable(p: Profile) {
      if p.id == "" then true
      else if p.vendor == "NVIDIA" then forall i :: 0 <= i < |p.settings| ==>
          Reachable(p.settings[i], Tunes(p.settings[i]))
      else p.vendor == "AMD" && |p.settings| == 0
    }

    predicate Resettable(p: Profile) {
      if p.id == "" then true
      else if p.vendor == "NVIDIA" then forall i :: 0 <= i < |p.settings| ==>
          Reachable(p.settings[i], Clears(p.settings[i]))
      else p.vendor != "AMD" || |p.settings| == 0
    }

    /** Every reading is within the limit, or of a GPU that can be limited. */
    predicate Enforceable(maximum: int, readings: seq<Gpu>) {
      forall i :: 0 <= i < |readings| ==>
        Within(readings[i], maximum) || (readings[i].vendor == "NVIDIA" && readings[i].index in gpus)
    }

    /** One hardware command. */
    method Write(g: int, f: Field, value: int) returns (ok: bool)
      requires Valid()
      modifies this`registers, this`commands
      ensures Valid() && commands == old(commands) + 1
      ensures ok <==> g in gpus && !faults(old(commands))
      ensures registers == if ok then old(registers)[(g, f) := value] else old(registers)
    {
      ok := !faults(commands) && g in gpus;
      commands := commands + 1;
      if ok {
        registers := registers[(g, f) := value];
      }
    }

    /** One command, where it is called for and nothing before it failed. */
    method Send(so: bool, called: bool, g: int, f: Field, value: int, ghost from: nat) returns (ok: bool)
      requires Valid() && from <= commands && (so ==> Quiet(faults, from, commands))
      modifies this`registers, this`commands
      ensures Valid() && commands >= old(commands)
      ensures !so || !called ==> ok == so && registers == old(registers) && commands == old(commands)
      ensures so && called ==> registers == if ok then old(registers)[(g, f) := value] else old(registers)
      ensures ok ==> Quiet(faults, from, commands) && (called ==> g in gpus)
      ensures so && !ok ==> called && (g !in gpus || !Quiet(faults, from, commands))
    {
      ok := so;
      if so && called {
        OneMore(faults, from, commands);
        ok := Write(g, f, value);
      }
    }

    method ApplyOne(g: int, s: Setting) returns (ok: bool)
      requires Valid()
      modifies this`registers, this`commands
      ensures Valid() && commands >= old(commands)
      ensures ok <==> Quiet(faults, old(commands), commands) && (Tunes(s) ==> g in gpus)
      ensures forall h, f: Field :: h in gpus ==>
        && (!(h == g && Writes(s, f)) ==> registers[(h, f)] == old(registers)[(h, f)])
        && (h == g && Writes(s, f) && ok ==> registers[(h, f)] == Value(s, f))
        && (h == g && Writes(s, f) ==> registers[(h, f)] in {old(registers)[(h, f)], Value(s, f)})
    {
      hide Quiet;
      ghost var from := commands;
      NothingYet(faults, commands);
      ok := Send(true, s.power > 0, g, Power, s.power, from);
      ok := SendPair(ok, s.coreClock > 0, s.memoryClock > 0, g, CoreClock, MemoryClock, s.coreClock, s.memoryClock,
          from);
      ok := SendPair(ok, s.coreOffset != 0, s.memoryOffset != 0, g, CoreOffset, MemoryOffset, s.coreOffset,
          s.memoryOffset, from);
    }

    /** Two commands, the second only if the first did not fail. */
    method SendPair(so: bool, calledA: bool, calledB: bool, g: int, a: Field, b: Field, valueA: int, valueB: int,
        ghost from: nat) returns (ok: bool)
      requires Valid() && from <= commands && (so ==> Quiet(faults, from, commands)) && a != b
      modifies this`registers, this`commands
      ensures Valid() && commands >= old(commands)
      ensures !so ==> !ok && registers == old(registers) && commands == old(commands)
      ensures forall h, f: Field :: h in gpus && !(h == g && ((f == a && calledA) || (f == b && calledB))) ==>
              registers[(h, f)] == old(registers)[(h, f)]
      ensures g in gpus && calledA ==>
              registers[(g, a)] in {old(registers)[(g, a)], valueA} && (ok ==> registers[(g, a)] == valueA)
      ensures g in gpus && calledB ==>
              registers[(g, b)] in {old(registers)[(g, b)], valueB} && (ok ==> registers[(g, b)] == valueB)
      ensures ok ==> Quiet(faults, from, commands) && (calledA || calledB ==> g in gpus)
      ensures so && !ok ==> (calledA || calledB) && (g !in gpus || !Quiet(faults, from, commands))
    {
      hide Quiet;
      ok := Send(so, calledA, g, a, valueA, from);
      ok := Send(ok, calledB, g, b, valueB, from);
    }

    method ResetOne(g: int, s: Setting) returns (ok: bool)
      requires Valid()
      modifies this`registers, this`commands
      ensures Valid() && commands >= old(commands)
      ensures ok <==> Quiet(faults, old(commands), commands) && (Clears(s) ==> g in gpus)
      ensures forall h, f: Field :: h in gpus ==>
        && (!(h == g && Value(s, f) != 0) ==> registers[(h, f)] == old(registers)[(h, f)])
        && (h == g && Value(s, f) != 0 && ok ==> registers[(h, f)] == Default(h, f))
        && (h == g && Value(s, f) != 0 ==> registers[(h, f)] in {old(registers)[(h, f)], Default(h, f)})
    {
      hide Quiet;
      ghost var from := commands;
      NothingYet(faults, commands);
      ok := SendPair(true, s.coreClock != 0, s.memoryClock != 0, g, CoreClock, MemoryClock, Default(g, CoreClock),
          Default(g, MemoryClock), from);
      ok := Send(ok, s.power != 0, g, Power, Default(g, Power), from);
      ok := SendPair(ok, s.coreOffset != 0, s.memoryOffset != 0, g, CoreOffset, MemoryOffset, 0, 0, from);
    }

    /** selectedNVIDIAIndices */
    function Targets(selector: string): seq<int> {
      if IsWildcard(selector) then gpus else [ParseInt(selector)]
    }

    /** One setting on every GPU it addresses. */
    method ApplyToTargets(s: Setting, targets: seq<int>) returns (ok: bool)
      requires Valid()
      modifies this`registers, this`commands
      ensures Valid() && commands >= old(commands)
      ensures ok <==>
                && Quiet(faults, old(commands), commands)
                && (Tunes(s) ==> forall j :: 0 <= j < |targets| ==> targets[j] in gpus)
      ensures forall g, f: Field :: g in gpus ==>
        && (!(g in targets && Writes(s, f)) ==> registers[(g, f)] == old(registers)[(g, f)])
        && (g in targets && Writes(s, f) && ok ==> registers[(g, f)] == Value(s, f))
        && (g in targets && Writes(s, f) ==> registers[(g, f)] in {old(registers)[(g, f)], Value(s, f)})
    {
      hide Writes, Value, Tunes;
      for j := 0 to |targets|
        invariant Valid() && commands >= old(commands) && Quiet(faults, old(commands), commands)
        invariant Tunes(s) ==> forall k :: 0 <= k < j ==> targets[k] in gpus
        invariant forall g, f: Field :: g in gpus ==>
          registers[(g, f)] == if g in targets[..j] && Writes(s, f) then Value(s, f) else old(registers)[(g, f)]
      {
        assert targets[..j + 1] == targets[..j] + [targets[j]];
        var done := ApplyOne(targets[j], s);
        if !done { return false; }
      }
      assert targets[..|targets|] == targets;
      ok := true;
    }

    /** applyNVIDIAOverclock. On failure every register is as after the first `reached` settings or one more. */
    method ApplySettings(settings: seq<Setting>) returns (ok: bool, reached: nat)
      requires Valid()
      modifies this`registers, this`commands
      ensures Valid() && commands >= old(commands)
      ensures ok <==> Quiet(faults, old(commands), commands) && forall i :: 0 <= i < |settings| ==>
              Reachable(settings[i], Tunes(settings[i]))
      ensures ok ==> forall g, f: Field :: g in gpus ==>
              registers[(g, f)] == After(settings, g, f, old(registers)[(g, f)])
      ensures !ok ==> reached < |settings| && forall i :: 0 <= i < reached ==>
              Reachable(settings[i], Tunes(settings[i]))
      ensures !ok && Quiet(faults, old(commands), commands) ==> !Reachable(settings[reached], Tunes(settings[reached]))
      ensures !ok ==> forall g, f: Field :: g in gpus ==>
        registers[(g, f)] in {After(settings[..reached], g, f, old(registers)[(g, f)]),
            After(settings[..reached + 1], g, f, old(registers)[(g, f)])}
    {
      hide Writes, Selects, ParseInt, Value, Tunes, Quiet;
      reached := 0;
      NothingYet(faults, commands);
      while reached < |settings|
        invariant reached <= |settings| && Valid() && commands >= old(commands)
                  && Quiet(faults, old(commands), commands)
        invariant forall i :: 0 <= i < reached ==> Reachable(settings[i], Tunes(settings[i]))
        invariant forall g, f: Field :: g in gpus ==>
                  registers[(g, f)] == After(settings[..reached], g, f, old(registers)[(g, f)])
      {
        var s := settings[reached];
        assert settings[..reached + 1][..reached] == settings[..reached];
        if !ValidSelector(s.selector) || (IsWildcard(s.selector) && |gpus| == 0) {
          return false, reached;
        }
        TargetsSelected(s.selector);
        ghost var sent := commands;
        ok := ApplyToTargets(s, Targets(s.selector));
        QuietBoth(faults, old(commands), sent, commands);
        TargetsReachable(s, Tunes(s));
        if !ok { return; }
        reached := reached + 1;
      }
      assert settings[..reached] == settings;
      ok := true;
    }

    lemma TargetsSelected(selector: string)
      requires Valid() && ValidSelector(selector)
      ensures forall g :: g in gpus ==> (g in Targets(selector) <==> Selects(selector, g))
      ensures forall g :: g in Targets(selector) ==> Selects(selector, g)
    {
    }

    lemma TargetsReachable(s: Setting, acts: bool)
      requires Valid() && ValidSelector(s.selector) && !(IsWildcard(s.selector) && |gpus| == 0)
      ensures Reachable(s, acts)
              <==> (acts ==> forall j :: 0 <= j < |Targets(s.selector)| ==> Targets(s.selector)[j] in gpus)
    {
      if !IsWildcard(s.selector) { assert Targets(s.selector)[0] == ParseInt(s.selector); }
    }

    /** The NVIDIA branch of resetOverclock. On failure the first `reached` settings were reset. */
    method ResetSettings(settings: seq<Setting>) returns (ok: bool, reached: nat)
      requires Valid()
      modifies this`registers, this`commands
      ensures Valid() && commands >= old(commands)
      ensures ok <==> Quiet(faults, old(commands), commands) && forall i :: 0 <= i < |settings| ==>
              Reachable(settings[i], Clears(settings[i]))
      ensures forall g, f: Field :: g in gpus ==>
        && (!ResetBy(settings, g, f) ==> registers[(g, f)] == old(registers)[(g, f)])
        && (ResetBy(settings, g, f) ==> registers[(g, f)] in {old(registers)[(g, f)], Default(g, f)})
        && (ok && ResetBy(settings, g, f) ==> registers[(g, f)] == Default(g, f))
      ensures !ok ==> reached < |settings| && forall i :: 0 <= i < reached ==>
              Reachable(settings[i], Clears(settings[i]))
      ensures !ok && Quiet(faults, old(commands), commands) ==> !Reachable(settings[reached], Clears(settings[reached]))
      ensures !ok ==> forall g, f: Field :: g in gpus && ResetBy(settings[..reached], g, f) ==>
              registers[(g, f)] == Default(g, f)
    {
      hide Quiet, Clears, ParseInt;
      reached := 0;
      NothingYet(faults, commands);
      while reached < |settings|
        invariant reached <= |settings| && Valid() && commands >= old(commands)
                  && Quiet(faults, old(commands), commands)
        invariant forall j :: 0 <= j < reached ==> Reachable(settings[j], Clears(settings[j]))
        invariant forall g, f: Field :: g in gpus ==>
          registers[(g, f)] == if ResetBy(settings[..reached], g, f) then Default(g, f) else old(registers)[(g, f)]
      {
        var s := settings[reached];
        assert forall k :: 0 <= k < reached ==> settings[..reached][k] == settings[k];
        assert forall g, f: Field :: ResetBy(settings[..reached], g, f) ==> ResetBy(settings, g, f);
        assert forall g, f: Field :: Resets(s, g, f) ==> ResetBy(settings, g, f);
        if !ValidSelector(s.selector) || (IsWildcard(s.selector) && |gpus| == 0) {
          return false, reached;
        }
        TargetsSelected(s.selector);
        ghost var sent := commands;
        ok := ResetTargets(s, Targets(s.selector));
        QuietBoth(faults, old(commands), sent, commands);
        TargetsReachable(s, Clears(s));
        if !ok { return; }
        ResetByOneMore(settings, reached);
        reached := reached + 1;
      }
      assert settings[..reached] == settings;
      ok := true;
    }

    /** One setting reset on every GPU it addresses. */
    method ResetTargets(s: Setting, targets: seq<int>) returns (ok: bool)
      requires Valid()
      modifies this`registers, this`commands
      ensures Valid() && commands >= old(commands)
      ensures ok <==>
                && Quiet(faults, old(commands), commands)
                && (Clears(s) ==> forall j :: 0 <= j < |targets| ==> targets[j] in gpus)
      ensures forall g, f: Field :: g in gpus ==>
        && (!(g in targets && Value(s, f) != 0) ==> registers[(g, f)] == old(registers)[(g, f)])
        && (g in targets && Value(s, f) != 0 && ok ==> registers[(g, f)] == Default(g, f))
        && (g in targets && Value(s, f) != 0 ==> registers[(g, f)] in {old(registers)[(g, f)], Default(g, f)})
    {
      hide Value, Clears;
      for j := 0 to |targets|
        invariant Valid() && commands >= old(commands) && Quiet(faults, old(commands), commands)
        invariant Clears(s) ==> forall k :: 0 <= k < j ==> targets[k] in gpus
        invariant forall g, f: Field :: g in gpus ==>
          registers[(g, f)] == if g in targets[..j] && Value(s, f) != 0 then Default(g, f) else old(registers)[(g, f)]
      {
        assert targets[..j + 1] == targets[..j] + [targets[j]];
        var done := ResetOne(targets[j], s);
        if !done { return false; }
      }
      assert targets[..|targets|] == targets;
      ok := true;
    }

    /** Applying a profile can only get as far as this setting: it is for a GPU that is not there. */
    predicate Impossible(settings: seq<Setting>, reached: nat) {
      reached < |settings| && !Reachable(settings[reached], Tunes(settings[reached]))
    }

    /** applyOverclock: with no AMD card on the rig an AMD profile can only be applied when it has no settings. */
    method Apply(p: Profile) returns (ok: bool, reached: nat)
      requires Valid()
      modifies this`registers, this`commands
      ensures Valid() && commands >= old(commands)
      ensures ok <==> Quiet(faults, old(commands), commands) && Applicable(p)
      ensures ok ==> forall g, f: Field :: g in gpus ==>
              registers[(g, f)] == After(Effective(p), g, f, old(registers)[(g, f)])
      ensures ok ==> p.id == "" || p.vendor == "NVIDIA" || p.settings == []
      ensures !ok ==> forall g, f: Field :: g in gpus ==>
        registers[(g, f)] in {After(Took(Effective(p), reached), g, f, old(registers)[(g, f)]),
                              After(Took(Effective(p), reached + 1), g, f, old(registers)[(g, f)])}
      ensures !ok && Quiet(faults, old(commands), commands) ==> Effective(p) == [] || Impossible(Effective(p), reached)
    {
      reached := 0;
      if p.id == "" {
        ok := true;
      } else if p.vendor == "NVIDIA" {
        ok, reached := ApplySettings(p.settings);
      } else {
        ok := p.vendor == "AMD" && |p.settings| == 0;
      }
    }

    /** resetOverclock */
    method Reset(p: Profile) returns (ok: bool, reached: nat)
      requires Valid()
      modifies this`registers, this`commands
      ensures Valid() && commands >= old(commands)
      ensures ok <==> Quiet(faults, old(commands), commands) && Resettable(p)
      ensures forall g, f: Field :: g in gpus ==>
        && (!ResetBy(Effective(p), g, f) ==> registers[(g, f)] == old(registers)[(g, f)])
        && (ResetBy(Effective(p), g, f) ==> registers[(g, f)] in {old(registers)[(g, f)], Default(g, f)})
        && (ok && ResetBy(Effective(p), g, f) ==> registers[(g, f)] == Default(g, f))
        && (!ok && ResetBy(Took(Effective(p), reached), g, f) ==> registers[(g, f)] == Default(g, f))
      ensures !ok && Quiet(faults, old(commands), commands) ==>
        Effective(p) == []
            || (reached < |Effective(p)| && !Reachable(Effective(p)[reached], Clears(Effective(p)[reached])))
    {
      reached := 0;
      if p.id == "" {
        ok := true;
      } else if p.vendor == "NVIDIA" {
        ok, reached := ResetSettings(p.settings);
      } else {
        ok := p.vendor != "AMD" || |p.settings| == 0;
      }
    }

    /**
     enforceGPUPowerLimit: a GPU with a reading of no limit or one above the maximum is set to the
     maximum, the others are left alone. Where the readings within the maximum are true, every
     listed limit then lies within it.
     */
    method EnforceLimit(maximum: int, readings: seq<Gpu>) returns (ok: bool)
      requires Valid()
      modifies this`registers, this`commands
      ensures Valid() && commands >= old(commands)
      ensures ok <==> maximum <= 0 || (Quiet(faults, old(commands), commands) && Enforceable(maximum, readings))
      ensures maximum <= 0 ==> registers == old(registers) && commands == old(commands)
      ensures forall g, f: Field :: g in gpus ==>
        if f.Power? && Lowered(readings, maximum, g) then registers[(g, f)] in {old(registers)[(g, f)], maximum}
        else registers[(g, f)] == old(registers)[(g, f)]
      ensures ok && maximum > 0 ==> forall g :: g in gpus && Lowered(readings, maximum, g) ==>
              registers[(g, Power)] == maximum
      ensures ok && maximum > 0 && old(Truthful(readings, maximum)) ==>
        forall g :: g in gpus && Listed(readings, g) ==> 0 < registers[(g, Power)] <= maximum
    {
      if maximum <= 0 { return true; }
      for i := 0 to |readings|
        invariant Valid() && commands >= old(commands) && Quiet(faults, old(commands), commands)
        invariant Enforceable(maximum, readings[..i])
        invariant forall g, f: Field :: g in gpus ==>
          registers[(g, f)] == if f.Power?
              && Lowered(readings[..i], maximum, g) then maximum else old(registers)[(g, f)]
      {
        var gpu := readings[i];
        assert readings[..i + 1] == readings[..i] + [gpu];
        LoweredMore(readings, i, maximum);
        if gpu.powerLimit > 0.0 && gpu.powerLimit <= maximum as real { continue; }
        if gpu.vendor != "NVIDIA" { return false; }
        var done := Write(gpu.index, Power, maximum);
        if !done { return false; }
      }
      assert readings[..|readings|] == readings;
      ok := true;
    }

    /** The limits reported as within the maximum are those in force. */
    ghost predicate Truthful(readings: seq<Gpu>, maximum: int)
      requires Valid()
      reads this
    {
      forall i :: 0 <= i < |readings| && readings[i].index in gpus && Within(readings[i], maximum) ==>
        readings[i].powerLimit == registers[(readings[i].index, Power)] as real
    }

    ghost predicate LimitWithin(g: int, maximum: int)
      requires Valid() && g in gpus
      reads this
    {
      0 < registers[(g, Power)] <= maximum
    }

    /**
     The listed limits once they were set again after a transition that did not succeed: above the
     maximum only where the previous profile takes them there, and where it was applied again in
     full exactly where it does.
     */
    ghost predicate RefusalLeaves(outcome: Outcome, previous: Profile, readings: seq<Gpu>, maximum: int)
      requires Valid()
      reads this
    {
      forall g :: g in gpus && Listed(readings, g) ==>
        && (outcome.RolledBack? ==> (LimitWithin(g, maximum) <==> !Exceeds(previous, readings, maximum, g)))
        && (LimitWithin(g, maximum) ||
            ((outcome.RolledBack? || outcome.Broken?) && !Lowered(readings, maximum, g)
                && SetsAbove(Effective(previous), g, maximum)))
    }

    /** The other controls of a profile are back, where it sets them or the next one left them at their defaults. */
    ghost predicate ControlsBack(previous: Profile, next: Profile)
      requires Valid()
      reads this
    {
      forall g, f: Field ::
        && g in gpus && !f.Power?
        && (Covered(Effective(previous), g, f) || OnlyStock(Effective(next), g, f, Default(g, f))) ==>
          registers[(g, f)] == After(Effective(previous), g, f, Default(g, f))
    }

    /** The value a register has once the removed controls are reset. */
    ghost function Cleared(previous: Profile, next: Profile, g: int, f: Field, before: int): int {
      if ResetBy(Effective(Removed(previous, next)), g, f) then Default(g, f) else before
    }

    /** The register after k settings of the next profile were applied, and then j of the previous one. */
    ghost function Halfway(previous: Profile, next: Profile, k: nat, j: nat, g: int, f: Field, before: int): int {
      var cleared := Cleared(previous, next, g, f, before);
      After(Took(Effective(previous), j), g, f, After(Took(Effective(next), k), g, f, cleared))
    }

    /** The register after k settings of the next profile were applied and the previous profile re-applied. */
    ghost function Undone(previous: Profile, next: Profile, k: nat, g: int, f: Field, before: int): int {
      Halfway(previous, next, k, |Effective(previous)|, g, f, before)
    }

    /** Hardware that holds the defaults with a profile applied on top. */
    ghost predicate Holds(p: Profile)
      requires Valid()
      reads this
    {
      forall g, f: Field :: g in gpus ==> registers[(g, f)] == After(Effective(p), g, f, Default(g, f))
    }

    /**
     Register by register: the power limit is the stock one, and clocks and offsets are 0, but for what
     the settings of an NVIDIA profile say, each overriding those before it.
     */
    lemma HoldsIs(p: Profile, g: int)
      requires Valid() && Holds(p) && g in gpus
      ensures var said := if p.id != "" && p.vendor == "NVIDIA" then p.settings else [];
              && registers[(g, Power)] == After(said, g, Power, defaultPower[g])
              && registers[(g, CoreClock)] == After(said, g, CoreClock, 0)
              && registers[(g, MemoryClock)] == After(said, g, MemoryClock, 0)
              && registers[(g, CoreOffset)] == After(said, g, CoreOffset, 0)
              && registers[(g, MemoryOffset)] == After(said, g, MemoryOffset, 0)
    {
      hide After;
    }

    /**
     transitionOverclock; preflightOk is what the read-only hardware queries report. On hardware
     holding the previous profile a success is exact: the rig then holds the next. A reset that
     fails ends it; after an apply that fails the previous profile is applied again.
     */
    method Transition(previous: Profile, next: Profile, preflightOk: bool)
      returns (outcome: Outcome, ghost trail: Trail)
      requires Valid()
      modifies this`registers, this`commands
      ensures Valid() && old(commands) <= trail.cleared <= trail.failed <= commands
      // when it ends how
      ensures outcome.Unchanged? <==> previous == next
      ensures outcome.Refused? <==> previous != next && next.id != "" && next.vendor == "NVIDIA" && !preflightOk
      ensures outcome.ResetFailed? <==>
                && previous != next && !outcome.Refused?
                && !(Quiet(faults, old(commands), trail.cleared) && Resettable(Removed(previous, next)))
      ensures outcome.Applied? <==>
                && previous != next && !outcome.Refused? && Quiet(faults, old(commands), commands)
                && Resettable(Removed(previous, next)) && Applicable(next)
      ensures outcome.RolledBack? || outcome.Broken? ==>
                && !(Quiet(faults, trail.cleared, trail.failed) && Applicable(next))
                && (outcome.RolledBack? <==> Quiet(faults, trail.failed, commands) && Applicable(previous))
      ensures outcome.RolledBack? || outcome.Broken? ==> Quiet(faults, trail.cleared, trail.failed) ==>
                Effective(next) == [] || Impossible(Effective(next), trail.reached)
      ensures outcome.Broken? && Quiet(faults, trail.failed, commands) ==>
                Effective(previous) == [] || Impossible(Effective(previous), trail.again)
      // what it leaves in each register
      ensures outcome.Unchanged? || outcome.Refused? ==> registers == old(registers) && commands == old(commands)
      ensures outcome.ResetFailed? ==> commands == trail.cleared
      ensures outcome.ResetFailed? ==> forall g, f: Field :: g in gpus ==>
        && registers[(g, f)] in {old(registers)[(g, f)], Cleared(previous, next, g, f, old(registers)[(g, f)])}
        && (ResetBy(Took(Effective(Removed(previous, next)), trail.reached), g, f) ==>
            registers[(g, f)] == Default(g, f))
      ensures outcome.Applied? ==> next.id == "" || next.vendor == "NVIDIA" || next.settings == []
      ensures outcome.Applied? ==> forall g, f: Field :: g in gpus ==>
        registers[(g, f)] == After(Effective(next), g, f, Cleared(previous, next, g, f, old(registers)[(g, f)]))
      ensures outcome.RolledBack? ==> forall g, f: Field :: g in gpus ==>
        registers[(g, f)] in {Undone(previous, next, trail.reached, g, f, old(registers)[(g, f)]),
                              Undone(previous, next, trail.reached + 1, g, f, old(registers)[(g, f)])}
      ensures outcome.Broken? ==> forall g, f: Field :: g in gpus ==>
        registers[(g, f)] in {Halfway(previous, next, trail.reached, trail.again, g, f, old(registers)[(g, f)]),
                              Halfway(previous, next, trail.reached, trail.again + 1, g, f, old(registers)[(g, f)]),
                              Halfway(previous, next, trail.reached + 1, trail.again, g, f, old(registers)[(g, f)]),
                              Halfway(previous, next, trail.reached + 1, trail.again + 1, g, f, old(registers)[(g, f)])}
      // what that means on hardware that held the previous profile
      ensures old(Holds(previous)) && WellFormed(next) && NonNegative(next.settings)
              && (outcome.Applied? || outcome.Unchanged?) ==>
                Holds(next)
      ensures outcome.RolledBack? ==> forall g, f: Field ::
        && g in gpus && old(registers)[(g, f)] == After(Effective(previous), g, f, Default(g, f))
        && (Covered(Effective(previous), g, f) || OnlyStock(Effective(next), g, f, Default(g, f))) ==>
          registers[(g, f)] == After(Effective(previous), g, f, Default(g, f))
    {
      hide Quiet, Resettable, Applicable, Impossible, ResetBy, Writes, Selects;
      trail := Trail(commands, commands, 0, 0);
      NothingYet(faults, commands);
      if previous == next {
        return Unchanged, trail;
      }
      if next.id != "" && next.vendor == "NVIDIA" && !preflightOk {
        return Refused, trail;
      }
      var removed := RemovedSettings(previous, next);
      var done, reached := Reset(removed);
      trail := Trail(commands, commands, reached, 0);
      if !done {
        return ResetFailed, trail;
      }
      done, reached := Apply(next);
      trail := trail.(failed := commands, reached := reached);
      QuietBoth(faults, old(commands), trail.cleared, commands);
      if done {
        if old(Holds(previous)) && WellFormed(next) && NonNegative(next.settings) {
          forall g, f: Field | g in gpus
            ensures registers[(g, f)] == After(Effective(next), g, f, Default(g, f))
          {
            TransitionExact(previous, next, g, f, Default(g, f));
          }
        }
        return Applied, trail;
      }
      ghost var half := registers;
      var restored, again := Apply(previous);
      QuietBoth(faults, old(commands), trail.failed, commands);
      trail := trail.(again := again);
      outcome := if restored then RolledBack else Broken;
      assert Took(Effective(previous), |Effective(previous)|) == Effective(previous);
      if restored {
        forall g, f: Field |
          && g in gpus && old(registers)[(g, f)] == After(Effective(previous), g, f, Default(g, f))
          && (Covered(Effective(previous), g, f) || OnlyStock(Effective(next), g, f, Default(g, f)))
          ensures registers[(g, f)] == After(Effective(previous), g, f, Default(g, f))
        {
          RollbackRestoresIff(previous, next, g, f, Default(g, f));
          assert Restored(previous, next, reached, g, f, Default(g, f))
              && Restored(previous, next, reached + 1, g, f, Default(g, f));
        }
      }
    }
  }

  // ----- the ceiling after a refused overclock -----

  /** Every setting has a limit within the maximum, and a wildcard gives one to all. */
  ghost predicate KeepsTo(settings: seq<Setting>, maximum: int) {
    HasWildcardLimit(settings) && forall i :: 0 <= i < |settings| ==> 0 < settings[i].power <= maximum
  }

  /** Some setting gives GPU g a limit above the maximum. */
  ghost predicate SetsAbove(settings: seq<Setting>, g: int, maximum: int) {
    exists i :: 0 <= i < |settings| && Covers(settings[i], g, Power) && settings[i].power > maximum
  }

  /**
   The limits are set again from readings taken before the previous profile was re-applied: a GPU
   that was within the maximum then, and that the previous profile takes above it, is left there.
   */
  ghost predicate Exceeds(previous: Profile, readings: seq<Gpu>, maximum: int, g: int) {
    !Lowered(readings, maximum, g) && After(Effective(previous), g, Power, maximum) > maximum
  }

  lemma {:induction false} AfterWithin(settings: seq<Setting>, g: int, before: int, maximum: int)
    requires forall i :: 0 <= i < |settings| ==> 0 < settings[i].power <= maximum
    requires 0 < before <= maximum
    ensures 0 < After(settings, g, Power, before) <= maximum
  {
    if settings != [] {
      AfterWithin(settings[..|settings| - 1], g, before, maximum);
    }
  }

  /** What a list leaves is positive, and above the maximum only by a setting that is. */
  lemma {:induction false} AfterAbove(settings: seq<Setting>, g: int, before: int, maximum: int)
    requires 0 < before <= maximum
    ensures 0 < After(settings, g, Power, before)
    ensures After(settings, g, Power, before) > maximum ==> SetsAbove(settings, g, maximum)
  {
    if settings != [] {
      var n := |settings| - 1;
      AfterAbove(settings[..n], g, before, maximum);
      if SetsAbove(settings[..n], g, maximum) {
        var i :| 0 <= i < n && Covers(settings[..n][i], g, Power) && settings[..n][i].power > maximum;
        assert Covers(settings[i], g, Power) && settings[i].power > maximum;
      }
      if Covers(settings[n], g, Power) && settings[n].power > maximum {
        assert SetsAbove(settings, g, maximum);
      }
    }
  }

  /** A profile that gives every GPU a limit has no limit reset on the way to it. */
  lemma LimitsStay(previous: Profile, next: Profile, maximum: int, g: int)
    requires KeepsTo(next.settings, maximum)
    ensures !ResetBy(Effective(Removed(previous, next)), g, Power)
  {
    ResetIffGivenUp(previous, next, g, Power);
  }

  lemma TookAbove(settings: seq<Setting>, j: nat, g: int, maximum: int)
    ensures SetsAbove(Took(settings, j), g, maximum) ==> SetsAbove(settings, g, maximum)
  {
    if SetsAbove(Took(settings, j), g, maximum) {
      var i :| 0 <= i < |Took(settings, j)| && Covers(Took(settings, j)[i], g, Power)
          && Took(settings, j)[i].power > maximum;
      assert Took(settings, j)[i] == settings[i];
    }
  }

  /** The limit of a GPU that was within the maximum, somewhere on the way back. */
  lemma HalfwayLimit(host: NvidiaHost, previous: Profile, next: Profile, k: nat, j: nat, g: int, before: int,
      maximum: int)
    requires KeepsTo(next.settings, maximum) && 0 < before <= maximum
    ensures var limit := host.Halfway(previous, next, k, j, g, Power, before);
            0 < limit && (limit > maximum ==> SetsAbove(Effective(previous), g, maximum))
  {
    LimitsStay(previous, next, maximum, g);
    assert forall i :: 0 <= i < |Took(Effective(next), k)| ==> Took(Effective(next), k)[i] == Effective(next)[i];
    AfterWithin(Took(Effective(next), k), g, before, maximum);
    AfterAbove(Took(Effective(previous), j), g, After(Took(Effective(next), k), g, Power, before), maximum);
    TookAbove(Effective(previous), j, g, maximum);
  }

  /** All the way back it is above the maximum if and only if the previous profile takes it there. */
  lemma UndoneLimit(host: NvidiaHost, previous: Profile, next: Profile, k: nat, g: int, before: int, maximum: int)
    requires KeepsTo(next.settings, maximum) && 0 < before <= maximum
    ensures host.Undone(previous, next, k, g, Power, before) > maximum
            <==> After(Effective(previous), g, Power, maximum) > maximum
    ensures 0 < host.Undone(previous, next, k, g, Power, before)
  {
    HalfwayLimit(host, previous, next, k, |Effective(previous)|, g, before, maximum);
    LimitsStay(previous, next, maximum, g);
    var mid := After(Took(Effective(next), k), g, Power, before);
    assert forall i :: 0 <= i < |Took(Effective(next), k)| ==> Took(Effective(next), k)[i] == Effective(next)[i];
    AfterWithin(Took(Effective(next), k), g, before, maximum);
    assert Took(Effective(previous), |Effective(previous)|) == Effective(previous);
    AfterCovered(Effective(previous), g, Power, mid, maximum);
    AfterCovered(Effective(previous), g, Power, maximum, maximum);
  }

  /** The limit of a GPU after a transition that did not succeed, from one within the maximum. */
  lemma RefusedLimit(host: NvidiaHost, outcome: Outcome, trail: Trail, previous: Profile, next: Profile, maximum: int,
      g: int,
                     before: int, after: int)
    requires KeepsTo(next.settings, maximum) && 0 < before <= maximum
    requires !outcome.Applied? && !outcome.Unchanged?
    requires outcome.Refused? ==> after == before
    requires outcome.ResetFailed? ==> after in {before, host.Cleared(previous, next, g, Power, before)}
    requires outcome.RolledBack? ==>
               after in {host.Undone(previous, next, trail.reached, g, Power, before),
                         host.Undone(previous, next, trail.reached + 1, g, Power, before)}
    requires outcome.Broken? ==>
               after in {host.Halfway(previous, next, trail.reached, trail.again, g, Power, before),
                         host.Halfway(previous, next, trail.reached, trail.again + 1, g, Power, before),
                         host.Halfway(previous, next, trail.reached + 1, trail.again, g, Power, before),
                         host.Halfway(previous, next, trail.reached + 1, trail.again + 1, g, Power, before)}
    ensures 0 < after
    ensures after > maximum ==> (outcome.RolledBack? || outcome.Broken?) && SetsAbove(Effective(previous), g, maximum)
    ensures outcome.RolledBack? ==> (after > maximum <==> After(Effective(previous), g, Power, maximum) > maximum)
  {
    hide KeepsTo, After, SetsAbove, NvidiaHost.Halfway;
    LimitsStay(previous, next, maximum, g);
    var k, j := trail.reached, trail.again;
    UndoneLimit(host, previous, next, k, g, before, maximum);
    UndoneLimit(host, previous, next, k + 1, g, before, maximum);
    HalfwayLimit(host, previous, next, k, |Effective(previous)|, g, before, maximum);
    HalfwayLimit(host, previous, next, k + 1, |Effective(previous)|, g, before, maximum);
    HalfwayLimit(host, previous, next, k, j, g, before, maximum);
    HalfwayLimit(host, previous, next, k, j + 1, g, before, maximum);
    HalfwayLimit(host, previous, next, k + 1, j, g, before, maximum);
    HalfwayLimit(host, previous, next, k + 1, j + 1, g, before, maximum);
  }

  /** On a GPU that held the previous profile, and reported its limit truly, the maximum is not exceeded. */
  lemma HeldNeverExceeds(previous: Profile, readings: seq<Gpu>, maximum: int, g: int, stock: int)
    requires exists i :: 0 <= i < |readings| && readings[i].index == g
                         && readings[i].powerLimit == After(Effective(previous), g, Power, stock) as real
    ensures !Exceeds(previous, readings, maximum, g)
  {
    AfterCovered(Effective(previous), g, Power, maximum, stock);
    if After(Effective(previous), g, Power, maximum) > maximum {
      var i :| 0 <= i < |readings| && readings[i].index == g
          && readings[i].powerLimit == After(Effective(previous), g, Power, stock) as real;
      assert readings[i].index == g && !Within(readings[i], maximum);
    }
  }

  /**
   GPU 0 stands at the ceiling of 200 W because an earlier change was refused, while the recorded
   profile has it at 300 W. The next profile is within the ceiling but names a GPU that is not
   there: it is rolled back, and setting the limits again leaves 300 W.
   */
  lemma CeilingCanFail(host: NvidiaHost)
    requires host.gpus == [0]
    ensures var previous := Profile("a", "", "NVIDIA", [UNSET.(selector := "0", power := 300)]);
            var next := Profile("b", "", "NVIDIA",
                [UNSET.(selector := "*", power := 200), UNSET.(selector := "0", power := 150),
                                                    UNSET.(selector := "7", power := 150)]);
            var readings := [Gpu(0, "NVIDIA", 200.0, 100.0, 1.0)];
            && KeepsTo(next.settings, 200) && host.Enforceable(200, readings)
            && host.Resettable(Removed(previous, next)) && host.Impossible(Effective(next), 2)
                && host.Applicable(previous)
            && Exceeds(previous, readings, 200, 0) && host.Undone(previous, next, 2, 0, Power, 200) == 300
  {
    var p := UNSET.(selector := "0", power := 300);
    var a, b, c := UNSET.(selector := "*", power := 200), UNSET.(selector := "0", power := 150),
        UNSET.(selector := "7", power := 150);
    var previous, next := Profile("a", "", "NVIDIA", [p]), Profile("b", "", "NVIDIA", [a, b, c]);
    hide ParseInt;
    NumberedGpus();
    assert "7"[0] != "*"[0] && "0"[0] != "*"[0] && "0"[0] != "7"[0];
    assert next.settings[0].selector == "*" && next.settings[0].power > 0;
    assert Replacement("0", [a, b, c], UNSET) == b by {
      assert [a, b, c][1..] == [b, c];
      assert Replacement("0", [b, c], UNSET.(power := 200)) == b;
    }
    assert RemovedFrom(p, [a, b, c]) == UNSET.(selector := "0");
    assert RemovedAll([p], [a, b, c]) == [] by { assert [p][..0] == []; }
    assert [p][..0] == [] && Covers(p, 0, Power);
    AfterCovered([p], 0, Power, 200, 0);
    assert After([p], 0, Power, 200) == 300;
    assert Took([p], 1) == [p];
    assert Covered([p], 0, Power) by { assert Covers([p][0], 0, Power); }
    AfterCovered([p], 0, Power, After(Took([a, b, c], 2), 0, Power, host.Cleared(previous, next, 0, Power, 200)), 200);
  }

  lemma NumberedGpus()
    ensures ParseInt("0") == 0 && ParseInt("7") == 7
  {
  }

  function Took(settings: seq<Setting>, k: nat): seq<Setting> {
    if k <= |settings| then settings[..k] else settings
  }

  lemma ResetByOneMore(settings: seq<Setting>, i: nat)
    requires i < |settings|
    ensures forall g, f: Field ::
            ResetBy(settings[..i + 1], g, f) == (ResetBy(settings[..i], g, f) || Resets(settings[i], g, f))
  {
    var more := settings[..i + 1];
    forall g, f: Field
      ensures ResetBy(more, g, f) == (ResetBy(settings[..i], g, f) || Resets(settings[i], g, f))
    {
      if ResetBy(more, g, f) {
        var k :| 0 <= k < |more| && Resets(more[k], g, f);
        assert k < i ==> Resets(settings[..i][k], g, f);
      }
      if ResetBy(settings[..i], g, f) {
        var k :| 0 <= k < i && Resets(settings[..i][k], g, f);
        assert Resets(more[k], g, f);
      }
      if Resets(settings[i], g, f) {
        assert Resets(more[i], g, f);
      }
    }
  }

  /** A profile without an id is the absence of one. */
  predicate WellFormed(p: Profile) {
    p.id == "" || p.vendor != "NVIDIA" ==> p.settings == []
  }

  ghost predicate NonNegative(settings: seq<Setting>) {
    forall i :: 0 <= i < |settings| ==>
        settings[i].coreClock >= 0 && settings[i].memoryClock >= 0 && settings[i].power >= 0
  }

  /** Whatever a replacement sets, some setting of the next profile sets for every GPU of the selector. */
  lemma {:induction false} ReplacementComesFromNext(selector: string, next: seq<Setting>, found: Setting, g: int,
      f: Field)
    requires Selects(selector, g)
    requires NonNegative(next)
    requires f.Power? || Value(found, f) == 0
    ensures Value(Replacement(selector, next, found), f) != 0 ==>
              Covered(next, g, f) || Value(found, f) != 0
  {
    if next != [] {
      if next[0].selector == selector {
        if Value(next[0], f) != 0 {
          assert Covers(next[0], g, f);
        }
      } else {
        var more := if next[0].selector == "*" && next[0].power > 0 then found.(power := next[0].power) else found;
        ReplacementComesFromNext(selector, next[1..], more, g, f);
        if Covered(next[1..], g, f) {
          var i :| 0 <= i < |next[1..]| && Covers(next[1..][i], g, f);
          assert Covers(next[i + 1], g, f);
        }
        if f.Power? && more != found {
          assert Covers(next[0], g, f);
        }
      }
    }
  }

  lemma {:induction false} RemovedAllResets(previous: seq<Setting>, next: seq<Setting>, k: nat, g: int, f: Field)
    requires k < |previous| && Resets(RemovedFrom(previous[k], next), g, f)
    ensures ResetBy(RemovedAll(previous, next), g, f)
  {
    var n := |previous| - 1;
    var all := RemovedAll(previous, next);
    if k == n {
      assert all[|all| - 1] == RemovedFrom(previous[n], next);
    } else {
      assert previous[..n][k] == previous[k];
      RemovedAllResets(previous[..n], next, k, g, f);
      var front := RemovedAll(previous[..n], next);
      var i :| 0 <= i < |front| && Resets(front[i], g, f);
      assert all[i] == front[i];
    }
  }

  /**
   A register the next profile does not set, and the previous one does, is reset: whatever
   the order, the duplicates and the mix of wildcard and index selectors.
   */
  lemma DroppedControlIsReset(previous: Profile, next: Profile, g: int, f: Field)
    requires WellFormed(next) && NonNegative(next.settings)
    requires Covered(Effective(previous), g, f) && !Covered(Effective(next), g, f)
    ensures ResetBy(Effective(Removed(previous, next)), g, f)
  {
    var k :| 0 <= k < |previous.settings| && Covers(previous.settings[k], g, f);
    var was := previous.settings[k];
    ReplacementComesFromNext(was.selector, next.settings, UNSET, g, f);
    assert Resets(RemovedFrom(was, next.settings), g, f);
    RemovedAllResets(previous.settings, next.settings, k, g, f);
  }

  /** Reset-then-apply on "defaults then previous" equals applying next to the defaults, register by register. */
  lemma TransitionExact(previous: Profile, next: Profile, g: int, f: Field, stock: int)
    requires WellFormed(next) && NonNegative(next.settings)
    ensures var before := After(Effective(previous), g, f, stock);
            var cleared := if ResetBy(Effective(Removed(previous, next)), g, f) then stock else before;
            After(Effective(next), g, f, cleared) == After(Effective(next), g, f, stock)
  {
    var before := After(Effective(previous), g, f, stock);
    AfterCovered(Effective(next), g, f, before, stock);
    AfterCovered(Effective(previous), g, f, stock, stock);
    if !Covered(Effective(next), g, f) && Covered(Effective(previous), g, f) {
      DroppedControlIsReset(previous, next, g, f);
    }
  }

  ghost predicate HasSelector(settings: seq<Setting>, selector: string) {
    exists j :: 0 <= j < |settings| && settings[j].selector == selector
  }

  ghost predicate HasWildcardLimit(settings: seq<Setting>) {
    exists j :: 0 <= j < |settings| && settings[j].selector == "*" && settings[j].power > 0
  }

  /**
   The first setting with this selector leaves the control at 0; without such a setting nothing
   takes it over but a wildcard's power limit.
   */
  ghost predicate LeftAtZero(selector: string, next: seq<Setting>, f: Field) {
    if HasSelector(next, selector) then
      exists j :: 0 <= j < |next| && next[j].selector == selector && Value(next[j], f) == 0
          && !HasSelector(next[..j], selector)
    else !(f.Power? && HasWildcardLimit(next))
  }

  /**
   Some previous setting for GPU g has the control, and what takes over from it in the next profile
   leaves it at 0.
   */
  ghost predicate GivenUp(previous: seq<Setting>, next: seq<Setting>, g: int, f: Field) {
    exists i :: 0 <= i < |previous| && Selects(previous[i].selector, g) && Value(previous[i], f) != 0
        && LeftAtZero(previous[i].selector, next, f)
  }

  /** The scan that stops at the first setting with the selector, and picks up wildcard limits on the way. */
  lemma {:induction false} ReplacementScan(selector: string, next: seq<Setting>, found: Setting, f: Field)
    requires found.power >= 0
    ensures Value(Replacement(selector, next, found), f) == 0
            <==> if HasSelector(next, selector) then LeftAtZero(selector, next, f)
                 else Value(found, f) == 0 && !(f.Power? && HasWildcardLimit(next))
  {
    if next == [] {
    } else if next[0].selector == selector {
      assert !HasSelector(next[..0], selector);
      forall j | 0 < j < |next| ensures HasSelector(next[..j], selector) {
        assert next[..j][0].selector == selector;
      }
    } else {
      var more := if next[0].selector == "*" && next[0].power > 0 then found.(power := next[0].power) else found;
      ReplacementScan(selector, next[1..], more, f);
      ScanOne(selector, next, f);
    }
  }

  /** The first setting does not have the selector. */
  lemma ScanOne(selector: string, next: seq<Setting>, f: Field)
    requires next != [] && next[0].selector != selector
    ensures HasSelector(next, selector) <==> HasSelector(next[1..], selector)
    ensures HasWildcardLimit(next) <==> (next[0].selector == "*" && next[0].power > 0) || HasWildcardLimit(next[1..])
    ensures HasSelector(next, selector) ==> (LeftAtZero(selector, next, f) <==> LeftAtZero(selector, next[1..], f))
  {
    var rest := next[1..];
    if HasSelector(next, selector) {
      var j :| 0 <= j < |next| && next[j].selector == selector;
      assert rest[j - 1] == next[j];
    }
    if HasWildcardLimit(next) && !(next[0].selector == "*" && next[0].power > 0) {
      var j :| 0 <= j < |next| && next[j].selector == "*" && next[j].power > 0;
      assert rest[j - 1] == next[j];
    }
    if HasSelector(rest, selector) { FirstOnes(selector, next, f); }
  }

  lemma FirstOnes(selector: string, next: seq<Setting>, f: Field)
    requires next != [] && next[0].selector != selector && HasSelector(next, selector)
             && HasSelector(next[1..], selector)
    ensures LeftAtZero(selector, next, f) <==> LeftAtZero(selector, next[1..], f)
  {
    var rest := next[1..];
    forall j | 0 <= j < |rest| ensures HasSelector(rest[..j], selector) <==> HasSelector(next[..j + 1], selector) {
      if HasSelector(next[..j + 1], selector) {
        var i :| 0 <= i < j + 1 && next[..j + 1][i].selector == selector;
        assert rest[..j][i - 1] == next[i];
      }
      if HasSelector(rest[..j], selector) {
        var i :| 0 <= i < j && rest[..j][i].selector == selector;
        assert next[..j + 1][i + 1] == rest[i];
      }
    }
    if LeftAtZero(selector, next, f) {
      var j :| 0 <= j < |next| && next[j].selector == selector && Value(next[j], f) == 0
          && !HasSelector(next[..j], selector);
      assert rest[j - 1] == next[j] && !HasSelector(rest[..j - 1], selector);
    }
    if LeftAtZero(selector, rest, f) {
      var j :| 0 <= j < |rest| && rest[j].selector == selector && Value(rest[j], f) == 0
          && !HasSelector(rest[..j], selector);
      assert next[j + 1] == rest[j] && !HasSelector(next[..j + 1], selector);
    }
  }

  lemma ReplacementIs(selector: string, next: seq<Setting>, f: Field)
    ensures Value(Replacement(selector, next, UNSET), f) == 0 <==> LeftAtZero(selector, next, f)
  {
    ReplacementScan(selector, next, UNSET, f);
  }

  /** What is reset, told from the two profiles alone. */
  lemma ResetIffGivenUp(previous: Profile, next: Profile, g: int, f: Field)
    ensures ResetBy(Effective(Removed(previous, next)), g, f) <==> GivenUp(Effective(previous), next.settings, g, f)
  {
    var removed := RemovedAll(previous.settings, next.settings);
    if GivenUp(Effective(previous), next.settings, g, f) {
      var i :| 0 <= i < |previous.settings| && Selects(previous.settings[i].selector, g)
          && Value(previous.settings[i], f) != 0
               && LeftAtZero(previous.settings[i].selector, next.settings, f);
      ReplacementIs(previous.settings[i].selector, next.settings, f);
      RemovedAllResets(previous.settings, next.settings, i, g, f);
    }
    if ResetBy(Effective(Removed(previous, next)), g, f) {
      var i := ResetComesFrom(previous.settings, next.settings, g, f);
      ReplacementIs(previous.settings[i].selector, next.settings, f);
    }
  }

  lemma {:induction false} ResetComesFrom(previous: seq<Setting>, next: seq<Setting>, g: int, f: Field) returns (k: nat)
    requires ResetBy(RemovedAll(previous, next), g, f)
    ensures k < |previous| && Resets(RemovedFrom(previous[k], next), g, f)
  {
    var n := |previous| - 1;
    var front, all := RemovedAll(previous[..n], next), RemovedAll(previous, next);
    var i :| 0 <= i < |all| && Resets(all[i], g, f);
    if i < |front| {
      assert Resets(front[i], g, f);
      k := ResetComesFrom(previous[..n], next, g, f);
    } else {
      k := n;
    }
  }

  /**
   Without the sign condition a register ends as a clean application of the next profile leaves
   it if and only if that profile sets it, or the previous one is seen to give it up, or it held
   its default.
   */
  lemma TransitionExactIff(previous: Profile, next: Profile, g: int, f: Field, stock: int)
    ensures var before := After(Effective(previous), g, f, stock);
            var cleared := if ResetBy(Effective(Removed(previous, next)), g, f) then stock else before;
            After(Effective(next), g, f, cleared) == After(Effective(next), g, f, stock)
            <==> (Covered(Effective(next), g, f) || GivenUp(Effective(previous), next.settings, g, f)
                || before == stock)
  {
    hide GivenUp, ResetBy;
    var before := After(Effective(previous), g, f, stock);
    AfterCovered(Effective(next), g, f, before, stock);
    AfterCovered(Effective(next), g, f, stock, stock);
    ResetIffGivenUp(previous, next, g, f);
  }

  /** A negative clock counts as a replacement but is never applied, so the old clock stays. */
  lemma NegativeClockKeepsOldClock()
    ensures var previous := Profile("a", "", "NVIDIA", [UNSET.(selector := "*", coreClock := 1500)]);
            var next := Profile("a", "", "NVIDIA", [UNSET.(selector := "*", coreClock := -1)]);
            && !ResetBy(Effective(Removed(previous, next)), 0, CoreClock)
            && After(Effective(next), 0, CoreClock, After(Effective(previous), 0, CoreClock, 0)) == 1500
            && After(Effective(next), 0, CoreClock, 0) == 0
  {
    var p := UNSET.(selector := "*", coreClock := 1500);
    var n := UNSET.(selector := "*", coreClock := -1);
    assert RemovedAll([p][..0], [n]) == [];
    assert RemovedFrom(p, [n]) == UNSET.(selector := "*");
    assert RemovedAll([p], [n]) == [];
    assert After([p], 0, CoreClock, 0) == 1500;
    assert [n][..0] == [];
  }

  /** The settings set the register to nothing but its default. */
  ghost predicate OnlyStock(settings: seq<Setting>, g: int, f: Field, stock: int) {
    forall i :: 0 <= i < |settings| && Covers(settings[i], g, f) ==> Value(settings[i], f) == stock
  }

  /** A failure after k settings of the next profile, and the previous profile re-applied: the register is as before. */
  ghost predicate Restored(previous: Profile, next: Profile, k: nat, g: int, f: Field, stock: int) {
    var before := After(Effective(previous), g, f, stock);
    var cleared := if ResetBy(Effective(Removed(previous, next)), g, f) then stock else before;
    After(Effective(previous), g, f, After(Took(Effective(next), k), g, f, cleared)) == before
  }

  lemma {:induction false} OnlyStockAfter(settings: seq<Setting>, g: int, f: Field, stock: int)
    ensures OnlyStock(settings, g, f, stock) ==> After(settings, g, f, stock) == stock
  {
    if settings != [] {
      var n := |settings| - 1;
      OnlyStockAfter(settings[..n], g, f, stock);
      assert forall i :: 0 <= i < n ==> settings[..n][i] == settings[i];
    }
  }

  /**
   A rollback after k settings restores a register if and only if the previous profile sets it, or
   those k settings left it at its default.
   */
  lemma RestoredIff(previous: Profile, next: Profile, k: nat, g: int, f: Field, stock: int)
    ensures Restored(previous, next, k, g, f, stock)
            <==> (Covered(Effective(previous), g, f) || After(Took(Effective(next), k), g, f, stock) == stock)
  {
    var before := After(Effective(previous), g, f, stock);
    var cleared := if ResetBy(Effective(Removed(previous, next)), g, f) then stock else before;
    var mid := After(Took(Effective(next), k), g, f, cleared);
    AfterCovered(Effective(previous), g, f, mid, stock);
    AfterCovered(Effective(previous), g, f, stock, stock);
  }

  /**
   Re-applying the previous profile restores a register wherever applying the next one fails
   if and only if the previous profile sets it, or the next one sets it to nothing but its default.
   */
  lemma RollbackRestoresIff(previous: Profile, next: Profile, g: int, f: Field, stock: int)
    ensures (forall k: nat :: Restored(previous, next, k, g, f, stock))
            <==> (Covered(Effective(previous), g, f) || OnlyStock(Effective(next), g, f, stock))
  {
    hide Restored;
    var s := Effective(next);
    if Covered(Effective(previous), g, f) || OnlyStock(s, g, f, stock) {
      forall k: nat ensures Restored(previous, next, k, g, f, stock) {
        RestoredIff(previous, next, k, g, f, stock);
        OnlyStockAfter(Took(s, k), g, f, stock);
        assert forall i :: 0 <= i < |Took(s, k)| ==> Took(s, k)[i] == s[i];
      }
    } else {
      var i :| 0 <= i < |s| && Covers(s[i], g, f) && Value(s[i], f) != stock;
      RestoredIff(previous, next, i + 1, g, f, stock);
      assert s[..i + 1][i] == s[i];
      assert !Restored(previous, next, i + 1, g, f, stock);
    }
  }

  /** Elsewhere it does not: a core offset written before the failure is still there afterwards. */
  lemma RollbackCanLeaveNewControl()
    ensures var previous := Profile("a", "", "NVIDIA", [UNSET.(selector := "*", power := 150)]);
            var next := Profile("a", "", "NVIDIA",
                [UNSET.(selector := "*", coreOffset := 100), UNSET.(selector := "7", power := 90)]);
            && !ResetBy(Effective(Removed(previous, next)), 0, CoreOffset)
            && After(Effective(previous), 0, CoreOffset, 0) == 0
            && After(Effective(previous), 0, CoreOffset, After(Took(Effective(next), 1), 0, CoreOffset, 0)) == 100
  {
    var p := UNSET.(selector := "*", power := 150);
    var n := UNSET.(selector := "*", coreOffset := 100);
    assert [p][..0] == [] && [n][..0] == [];
    var next := [n, UNSET.(selector := "7", power := 90)];
    assert next[..1] == [n];
    assert RemovedFrom(p, next) == p;
    assert RemovedAll([p][..0], next) == [];
    assert RemovedAll([p], next) == [p];
    assert !Resets(p, 0, CoreOffset);
    assert After([n], 0, CoreOffset, 0) == 100;
  }

  // ----- when the miner does not start afterwards -----

  /**
   A transition whose miner then fails to start is not recorded: the rig holds `applied` while
   the next transition starts from `previous`. Repeating the same transition is harmless.
   */
  lemma RepeatedTransitionIsExact(previous: Profile, applied: Profile, g: int, f: Field, stock: int)
    ensures var held := After(Effective(applied), g, f, stock);
            After(Effective(applied), g, f, if ResetBy(Effective(Removed(previous, applied)), g, f) then stock
                else held) == held
  {
    var held := After(Effective(applied), g, f, stock);
    AfterCovered(Effective(applied), g, f, held, stock);
    AfterCovered(Effective(applied), g, f, stock, stock);
  }

  /**
   Moving on to a third profile is exact if and only if that one sets the register, or the recorded
   one is seen to give it up, or it held its default.
   */
  lemma UnrecordedTransitionIff(previous: Profile, applied: Profile, next: Profile, g: int, f: Field, stock: int)
    ensures var held := After(Effective(applied), g, f, stock);
            var cleared := if ResetBy(Effective(Removed(previous, next)), g, f) then stock else held;
            After(Effective(next), g, f, cleared) == After(Effective(next), g, f, stock)
            <==> (Covered(Effective(next), g, f) || GivenUp(Effective(previous), next.settings, g, f) || held == stock)
  {
    hide GivenUp, ResetBy;
    var held := After(Effective(applied), g, f, stock);
    AfterCovered(Effective(next), g, f, held, stock);
    AfterCovered(Effective(next), g, f, stock, stock);
    ResetIffGivenUp(previous, next, g, f);
  }

  /** So an offset from a profile whose miner never started can outlive the change to another profile. */
  lemma FailedStartLeavesControl()
    ensures var applied := Profile("b", "", "NVIDIA", [UNSET.(selector := "*", coreOffset := 100)]);
            var next := Profile("c", "", "NVIDIA", [UNSET.(selector := "*", power := 150)]);
            && !ResetBy(Effective(Removed(NO_PROFILE, next)), 0, CoreOffset)
            && After(Effective(next), 0, CoreOffset, After(Effective(applied), 0, CoreOffset, 0)) == 100
            && After(Effective(next), 0, CoreOffset, 0) == 0
  {
    var a, n := UNSET.(selector := "*", coreOffset := 100), UNSET.(selector := "*", power := 150);
    assert RemovedAll([], [n]) == [];
    assert [a][..0] == [] && [n][..0] == [];
    assert After([a], 0, CoreOffset, 0) == 100;
  }
}
