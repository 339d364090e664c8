/**
 The controller-wide GPU power ceiling: clamping a profile, on the controller and again
 on the agent.
 */
module PowerPolicy {
  import opened Tuning

  const ALL_GPUS := "*"

  function Ceiling(maximum: int): Setting {
    Setting(ALL_GPUS, 0, 0, 0, 0, maximum, 0)
  }

  function ClampSetting(s: Setting, maximum: int): Setting {
    if s.power == 0 || s.power > maximum then s.(power := maximum) else s
  }

  function ClampAll(settings: seq<Setting>, maximum: int): (r: seq<Setting>)
    ensures |r| == |settings|
    ensures forall i :: 0 <= i < |r| ==> r[i] == ClampSetting(settings[i], maximum)
  {
    if settings == [] then []
        else ClampAll(settings[..|settings| - 1], maximum) + [ClampSetting(settings[|settings| - 1], maximum)]
  }

  predicate HasWildcard(settings: seq<Setting>) {
    exists i :: 0 <= i < |settings| && settings[i].selector == ALL_GPUS
  }

  /** The profile the clamp produces. */
  function Clamped(profile: Profile, maximum: int, gpus: seq<Gpu>): Profile {
    if maximum <= 0 || |gpus| == 0 then profile
    else
      var named := if profile.id == ""
                   then profile.(id := "gpu-power-policy", name := "Controller GPU power policy",
                       vendor := gpus[0].vendor)
                   else profile;
      var owned := if named.vendor == "" then named.(vendor := gpus[0].vendor) else named;
      var body := ClampAll(profile.settings, maximum);
      owned.(settings := if HasWildcard(profile.settings) then body else [Ceiling(maximum)] + body)
  }

  /** applyGPUPowerPolicyToProfile: one pass that clamps and looks for a wildcard. */
  method Clamp(profile: Profile, maximum: int, gpus: seq<Gpu>) returns (r: Profile)
    ensures r == Clamped(profile, maximum, gpus)
  {
    if maximum <= 0 || |gpus| == 0 {
      return profile;
    }
    r := profile;
    if r.id == "" {
      r := r.(id := "gpu-power-policy", name := "Controller GPU power policy", vendor := gpus[0].vendor);
    }
    if r.vendor == "" {
      r := r.(vendor := gpus[0].vendor);
    }
    var settings: seq<Setting> := [];
    var hasWildcard := false;
    for i := 0 to |profile.settings|
      invariant settings == ClampAll(profile.settings[..i], maximum)
      invariant hasWildcard == HasWildcard(profile.settings[..i])
    {
      var setting := profile.settings[i];
      assert profile.settings[..i + 1][..i] == profile.settings[..i];
      assert forall j :: 0 <= j < i ==> profile.settings[..i + 1][j] == profile.settings[..i][j];
      if setting.selector == ALL_GPUS {
        hasWildcard := true;
        assert profile.settings[..i + 1][i].selector == ALL_GPUS;
      }
      if setting.power == 0 || setting.power > maximum {
        setting := setting.(power := maximum);
      }
      settings := settings + [setting];
    }
    assert profile.settings[..|profile.settings|] == profile.settings;
    if !hasWildcard {
      settings := [Ceiling(maximum)] + settings;
    }
    r := r.(settings := settings);
  }

  /** Whichever of controller and agent first sees GPUs does the whole clamp; the other changes nothing. */
  lemma ClampTwice(profile: Profile, maximum: int, seen: seq<Gpu>, live: seq<Gpu>)
    requires forall i :: 0 <= i < |seen| ==> seen[i].vendor != ""
    ensures Clamped(Clamped(profile, maximum, seen), maximum, live)
         == if |seen| == 0 then Clamped(profile, maximum, live) else Clamped(profile, maximum, seen)
  {
    if maximum > 0 && |seen| != 0 {
      var once := Clamped(profile, maximum, seen);
      var body := ClampAll(profile.settings, maximum);
      if HasWildcard(profile.settings) {
        var i :| 0 <= i < |profile.settings| && profile.settings[i].selector == ALL_GPUS;
        assert body[i].selector == ALL_GPUS;
      } else {
        assert once.settings[0].selector == ALL_GPUS;
      }
      assert HasWildcard(once.settings);
      assert ClampAll(once.settings, maximum) == once.settings;
    }
  }

  ghost predicate NonNegativePower(settings: seq<Setting>) {
    forall i :: 0 <= i < |settings| ==> settings[i].power >= 0
  }

  /** The last setting addressing g, whatever its power, or -1. */
  function LastSelecting(settings: seq<Setting>, g: int): (k: int)
    ensures -1 <= k < |settings|
    ensures k >= 0 ==> Selects(settings[k].selector, g)
    ensures forall i :: k < i < |settings| ==> !Selects(settings[i].selector, g)
  {
    if settings == [] then -1
    else if Selects(settings[|settings| - 1].selector, g) then |settings| - 1
    else LastSelecting(settings[..|settings| - 1], g)
  }

  /**
   After a clamped profile is applied every GPU's limit is positive and at most the ceiling,
   whatever it was before.
   */
  lemma CeilingHolds(profile: Profile, maximum: int, gpus: seq<Gpu>, g: int, before: int)
    requires maximum > 0 && |gpus| > 0 && NonNegativePower(profile.settings)
    ensures 0 < After(Clamped(profile, maximum, gpus).settings, g, Power, before) <= maximum
  {
    var settings := Clamped(profile, maximum, gpus).settings;
    CoveredByWildcard(profile, maximum, gpus, g);
    var k := AfterIsSomeSetting(settings, g, Power, before);
  }

  lemma CoveredByWildcard(profile: Profile, maximum: int, gpus: seq<Gpu>, g: int)
    requires maximum > 0 && |gpus| > 0 && NonNegativePower(profile.settings)
    ensures Covered(Clamped(profile, maximum, gpus).settings, g, Power)
    ensures forall i :: 0 <= i < |Clamped(profile, maximum, gpus).settings| ==>
                          0 < Clamped(profile, maximum, gpus).settings[i].power <= maximum
  {
    var settings := Clamped(profile, maximum, gpus).settings;
    if HasWildcard(profile.settings) {
      var i :| 0 <= i < |profile.settings| && profile.settings[i].selector == ALL_GPUS;
      assert Covers(settings[i], g, Power);
    } else {
      assert Covers(settings[0], g, Power);
    }
  }

  lemma {:induction false} ClampAllLimit(settings: seq<Setting>, maximum: int, g: int, before: int)
    requires maximum > 0 && NonNegativePower(settings)
    ensures var k := LastSelecting(settings, g);
            After(ClampAll(settings, maximum), g, Power, before)
            == if k < 0 then before else ClampSetting(settings[k], maximum).power
  {
    if settings != [] {
      var n := |settings| - 1;
      ClampAllLimit(settings[..n], maximum, g, before);
      var body := ClampAll(settings, maximum);
      assert body[..n] == ClampAll(settings[..n], maximum);
      assert Covers(body[n], g, Power) == Selects(settings[n].selector, g);
    }
  }

  lemma {:induction false} AfterFirst(first: Setting, rest: seq<Setting>, g: int, f: Field, before: int)
    ensures After([first] + rest, g, f, before)
         == After(rest, g, f, if Covers(first, g, f) then Value(first, f) else before)
  {
    var all := [first] + rest;
    if rest == [] {
      assert all[..0] == [] && all[0] == first;
    } else {
      AfterFirst(first, rest[..|rest| - 1], g, f, before);
      assert all[..|all| - 1] == [first] + rest[..|rest| - 1];
    }
  }

  /** The clamped limit of g is that of the last setting addressing g, cut to the ceiling. */
  lemma ClampedLimit(profile: Profile, maximum: int, gpus: seq<Gpu>, g: int, before: int)
    requires maximum > 0 && |gpus| > 0 && NonNegativePower(profile.settings)
    ensures var k := LastSelecting(profile.settings, g);
            After(Clamped(profile, maximum, gpus).settings, g, Power, before)
            == if k < 0 || profile.settings[k].power == 0 || profile.settings[k].power > maximum then maximum
               else profile.settings[k].power
  {
    ClampAllLimit(profile.settings, maximum, g, before);
    ClampAllLimit(profile.settings, maximum, g, maximum);
    if HasWildcard(profile.settings) {
      var i :| 0 <= i < |profile.settings| && profile.settings[i].selector == ALL_GPUS;
      assert Selects(profile.settings[i].selector, g);
    } else {
      AfterFirst(Ceiling(maximum), ClampAll(profile.settings, maximum), g, Power, before);
    }
  }

  function Min(a: int, b: int): int {
    if a <= b then a else b
  }

  /**
   For a GPU the unclamped profile limits, the clamp keeps the smaller of that limit and
   the ceiling exactly when the last setting addressing the GPU has a limit of its own, or
   the ceiling was no higher anyway: a setting that leaves power at 0 loses the limit an
   earlier wildcard gave.
   */
  lemma ClampKeepsLowerLimit(profile: Profile, maximum: int, gpus: seq<Gpu>, g: int, before: int)
    requires maximum > 0 && |gpus| > 0 && NonNegativePower(profile.settings)
    requires Covered(profile.settings, g, Power)
    ensures var was := After(profile.settings, g, Power, before);
            After(Clamped(profile, maximum, gpus).settings, g, Power, before) == Min(was, maximum)
            <==> (profile.settings[LastSelecting(profile.settings, g)].power > 0 || maximum <= was)
  {
    var k := AfterIsSomeSetting(profile.settings, g, Power, before);
    var last := LastSelecting(profile.settings, g);
    assert last >= k;
    ClampedLimit(profile, maximum, gpus, g, before);
    if profile.settings[last].power > 0 {
      assert Covers(profile.settings[last], g, Power);
    }
  }

  /**
   Where every setting states a limit the result is exact: the smaller of the two, or the ceiling
   where nothing applied.
   */
  lemma ClampExact(profile: Profile, maximum: int, gpus: seq<Gpu>, g: int, before: int)
    requires maximum > 0 && |gpus| > 0
    requires forall i :: 0 <= i < |profile.settings| ==> profile.settings[i].power > 0
    ensures After(Clamped(profile, maximum, gpus).settings, g, Power, before)
         == if Covered(profile.settings, g, Power) then Min(After(profile.settings, g, Power, before), maximum)
             else maximum
  {
    ClampedLimit(profile, maximum, gpus, g, before);
    var k := LastSelecting(profile.settings, g);
    assert k >= 0 ==> Covers(profile.settings[k], g, Power);
    if Covered(profile.settings, g, Power) {
      ClampKeepsLowerLimit(profile, maximum, gpus, g, before);
    }
  }

  /** A ceiling of 200 W raises GPU 0 from the 150 W its wildcard set, because its own entry leaves power at 0. */
  lemma ClampCanRaise()
    ensures var settings := [Setting("*", 0, 0, 0, 0, 150, 0), Setting("0", 1500, 0, 0, 0, 0, 0)];
            var profile := Profile("p", "p", "NVIDIA", settings);
            var gpus := [Gpu(0, "NVIDIA", 150.0, 100.0, 1.0)];
            && After(settings, 0, Power, 0) == 150
            && After(Clamped(profile, 200, gpus).settings, 0, Power, 0) == 200
  {
    var settings := [Setting("*", 0, 0, 0, 0, 150, 0), Setting("0", 1500, 0, 0, 0, 0, 0)];
    var profile := Profile("p", "p", "NVIDIA", settings);
    var gpus := [Gpu(0, "NVIDIA", 150.0, 100.0, 1.0)];
    assert settings[..1] == [settings[0]] && settings[..1][..0] == [];
    assert ParseInt("0") == 0;
    assert LastSelecting(settings, 0) == 1;
    assert Covers(settings[0], 0, Power);
    ClampedLimit(profile, 200, gpus, 0, 0);
  }

  lemma {:induction false} ClampAllControls(settings: seq<Setting>, maximum: int, g: int, f: Field, before: int)
    requires !f.Power?
    ensures After(ClampAll(settings, maximum), g, f, before) == After(settings, g, f, before)
  {
    hide Selects;
    if settings != [] {
      var n := |settings| - 1;
      ClampAllControls(settings[..n], maximum, g, f, before);
      var all := ClampAll(settings, maximum);
      assert all[..n] == ClampAll(settings[..n], maximum);
    }
  }

  /** The clamp leaves clocks and offsets as the profile has them, and an owned profile its identity. */
  lemma ClampLeavesControls(profile: Profile, maximum: int, gpus: seq<Gpu>, g: int, f: Field, before: int)
    requires !f.Power?
    ensures var c := Clamped(profile, maximum, gpus);
            && After(c.settings, g, f, before) == After(profile.settings, g, f, before)
            && (profile.id != "" ==> c.id == profile.id && c.name == profile.name)
            && (profile.id != "" && profile.vendor != "" ==> c.vendor == profile.vendor)
            && (maximum <= 0 || gpus == [] ==> c == profile)
            && (maximum > 0 && gpus != [] ==> c.id != "" && (c.vendor == "" ==> gpus[0].vendor == ""))
  {
    hide Selects, ClampAll;
    ClampAllControls(profile.settings, maximum, g, f, before);
    if maximum > 0 && gpus != [] && !HasWildcard(profile.settings) {
      AfterFirst(Ceiling(maximum), ClampAll(profile.settings, maximum), g, f, before);
      assert After([Ceiling(maximum)], g, f, before) == before by { OneSetting(Ceiling(maximum), g, before); }
    }
  }
}
