/**
 Overclock profiles and what a list of settings means for one register of one GPU.
 */
module Tuning {

  /** One entry of a profile; 0 leaves a control alone. Fans are not per-GPU state and are not registers. */
  datatype Setting = Setting(
    selector: string,
    coreClock: int,
    coreOffset: int,
    memoryClock: int,
    memoryOffset: int,
    power: int,
    fan: int)

  datatype Profile = Profile(id: string, name: string, vendor: string, settings: seq<Setting>)

  const NO_PROFILE := Profile("", "", "", [])

  datatype Gpu = Gpu(index: int, vendor: string, powerLimit: real, powerDraw: real, hashrate: real)

  datatype Field = CoreClock | MemoryClock | CoreOffset | MemoryOffset | Power

  function Value(s: Setting, f: Field): int {
    match f
    case CoreClock => s.coreClock
    case MemoryClock => s.memoryClock
    case CoreOffset => s.coreOffset
    case MemoryOffset => s.memoryOffset
    case Power => s.power
  }

  /**
   Whether applying the setting sends a command for this field: clocks and power need a positive
   value, offsets any non-zero one.
   */
  predicate Writes(s: Setting, f: Field) {
    if f.CoreOffset? || f.MemoryOffset? then Value(s, f) != 0 else Value(s, f) > 0
  }

  const MAX_INT := 0x7fff_ffff_ffff_ffff

  /** Decimal number with an optional sign; -1 where the text is not a number, a negative or too large one. */
  function ParseInt(text: string): (r: int)
    ensures r >= -1
  {
    if text != "" && text[0] == '+' then Fitting(ParseDigits(text[1..]))
    else if text != "" && text[0] == '-' then if ParseDigits(text[1..]) == 0 then 0 else -1
    else Fitting(ParseDigits(text))
  }

  function Fitting(n: int): int {
    if n <= MAX_INT then n else -1
  }

  function ParseDigits(text: string): (r: int)
    ensures r >= -1
  {
    if text == "" then -1
    else if !('0' <= text[|text| - 1] <= '9') then -1
    else
      var digit := text[|text| - 1] as int - '0' as int;
      if |text| == 1 then digit
      else
        var rest := ParseDigits(text[..|text| - 1]);
        if rest < 0 then -1 else 10 * rest + digit
  }

  // ----- reading numerals, against writing them -----

  const DIGITS := "0123456789"

  /** The numeral of a number, most significant digit first. */
  function Decimal(n: nat): string {
    if n < 10 then [DIGITS[n]] else Decimal(n / 10) + [DIGITS[n % 10]]
  }

  function Zeros(k: nat): string {
    seq(k, _ => '0')
  }

  lemma LastDigit(front: string, d: nat)
    requires d < 10
    ensures ParseDigits(front + [DIGITS[d]]) ==
            if front == "" then d else if ParseDigits(front) < 0 then -1 else 10 * ParseDigits(front) + d
  {
    var text := front + [DIGITS[d]];
    assert text[..|text| - 1] == front && text[|text| - 1] == DIGITS[d];
    assert DIGITS[d] as int == '0' as int + d;
  }

  lemma {:induction false} ZerosAreNothing(k: nat)
    ensures k > 0 ==> ParseDigits(Zeros(k)) == 0
  {
    if k > 0 {
      ZerosAreNothing(k - 1);
      LastDigit(Zeros(k - 1), 0);
      assert Zeros(k) == Zeros(k - 1) + [DIGITS[0]];
    }
  }

  /** Reading a numeral gives the number written, whatever zeros stand before it. */
  lemma {:induction false} ReadBack(n: nat, k: nat)
    ensures ParseDigits(Zeros(k) + Decimal(n)) == n
  {
    if n < 10 {
      ZerosAreNothing(k);
      LastDigit(Zeros(k), n);
    } else {
      ReadBack(n / 10, k);
      LastDigit(Zeros(k) + Decimal(n / 10), n % 10);
      assert Zeros(k) + Decimal(n) == (Zeros(k) + Decimal(n / 10)) + [DIGITS[n % 10]];
    }
  }

  /** Only numerals are read: every text that is a number is one with zeros before it. */
  lemma {:induction false} ReadIsWritten(text: string) returns (k: nat)
    requires ParseDigits(text) >= 0
    ensures text == Zeros(k) + Decimal(ParseDigits(text))
  {
    var front, n := text[..|text| - 1], ParseDigits(text);
    var d := text[|text| - 1] as int - '0' as int;
    assert text == front + [DIGITS[d]];
    if front == "" {
      k := 0;
      assert Zeros(0) == "" && Decimal(n) == [DIGITS[d]];
    } else {
      var rest := ParseDigits(front);
      k := ReadIsWritten(front);
      assert n / 10 == rest && n % 10 == d;
      if rest == 0 {
        assert Decimal(0) == ['0'] && Zeros(k + 1) == Zeros(k) + ['0'];
        k := k + 1;
      } else {
        assert Decimal(n) == Decimal(rest) + [DIGITS[d]];
      }
    }
  }

  /**
   Selectors: the numeral of a number addresses the GPU of that number and no other, with zeros or a plus
   sign before it too, and nobody where the number is out of range.
   */
  lemma NumeralSelects(n: nat, k: nat, g: int)
    requires g >= 0
    ensures Selects(Zeros(k) + Decimal(n), g) <==> g == n <= MAX_INT
    ensures Selects("+" + (Zeros(k) + Decimal(n)), g) <==> g == n <= MAX_INT
    ensures Selects("-" + (Zeros(k) + Decimal(n)), g) <==> g == n == 0
    ensures ValidSelector(Zeros(k) + Decimal(n)) <==> n <= MAX_INT
  {
    hide Zeros, Decimal, Selects, ValidSelector;
    ReadBack(n, k);
    StartsWithDigit(n, k);
    TextSelects(Zeros(k) + Decimal(n), n, g);
  }

  lemma TextSelects(text: string, n: nat, g: int)
    requires ParseDigits(text) == n && g >= 0
    requires text != "" && '0' <= text[0] <= '9'
    ensures Selects(text, g) <==> g == n <= MAX_INT
    ensures Selects("+" + text, g) <==> g == n <= MAX_INT
    ensures Selects("-" + text, g) <==> g == n == 0
    ensures ValidSelector(text) <==> n <= MAX_INT
  {
    hide ParseDigits;
    assert ("+" + text)[1..] == text && ("-" + text)[1..] == text;
  }

  lemma {:induction false} StartsWithDigit(n: nat, k: nat)
    ensures var text := Zeros(k) + Decimal(n);
            text != "" && '0' <= text[0] <= '9'
  {
    if n >= 10 {
      StartsWithDigit(n / 10, k);
      assert Zeros(k) + Decimal(n) == (Zeros(k) + Decimal(n / 10)) + [DIGITS[n % 10]];
    }
  }

  /** A text addresses a GPU by number only if it is a signed numeral of that number. */
  lemma SelectorIsNumeral(text: string, g: int) returns (k: nat)
    requires Selects(text, g) && !IsWildcard(text) && g >= 0
    ensures g <= MAX_INT
    ensures text in [Zeros(k) + Decimal(g), "+" + (Zeros(k) + Decimal(g)), "-" + (Zeros(k) + Decimal(g))]
    ensures text[0] == '-' ==> g == 0
  {
    if text[0] == '+' || text[0] == '-' {
      k := ReadIsWritten(text[1..]);
      assert text == [text[0]] + text[1..];
    } else {
      k := ReadIsWritten(text);
    }
  }

  predicate IsWildcard(selector: string) {
    selector == "" || selector == "*"
  }

  predicate ValidSelector(selector: string) {
    IsWildcard(selector) || ParseInt(selector) >= 0
  }

  /** Whether a setting with this selector addresses GPU g. */
  predicate Selects(selector: string, g: int) {
    IsWildcard(selector) || ParseInt(selector) == g
  }

  predicate Covers(s: Setting, g: int, f: Field) {
    Selects(s.selector, g) && Writes(s, f)
  }

  /** The register value left by applying the settings in order: the last covering setting wins. */
  function After(settings: seq<Setting>, g: int, f: Field, before: int): int {
    if settings == [] then before
    else
      var last := settings[|settings| - 1];
      if Covers(last, g, f) then Value(last, f) else After(settings[..|settings| - 1], g, f, before)
  }

  predicate Covered(settings: seq<Setting>, g: int, f: Field) {
    exists i :: 0 <= i < |settings| && Covers(settings[i], g, f)
  }

  /**
   What one setting does to each control of a GPU: a clock or a power limit above zero is set, an
   offset other than zero is, and everything else, or of any other GPU, stays.
   */
  lemma OneSetting(s: Setting, g: int, before: int)
    ensures var mine := s.selector == "" || s.selector == "*" || ParseInt(s.selector) == g;
            && After([s], g, CoreClock, before) == (if mine && s.coreClock > 0 then s.coreClock else before)
            && After([s], g, MemoryClock, before) == (if mine && s.memoryClock > 0 then s.memoryClock else before)
            && After([s], g, CoreOffset, before) == (if mine && s.coreOffset != 0 then s.coreOffset else before)
            && After([s], g, MemoryOffset, before) == (if mine && s.memoryOffset != 0 then s.memoryOffset else before)
            && After([s], g, Power, before) == (if mine && s.power > 0 then s.power else before)
  {
    hide ParseInt;
    assert [s][..0] == [];
    forall f: Field ensures After([s], g, f, before) == if Covers(s, g, f) then Value(s, f) else before {}
  }

  /** Applying one list and then another. */
  lemma {:induction false} AfterBoth(first: seq<Setting>, second: seq<Setting>, g: int, f: Field, before: int)
    ensures After(first + second, g, f, before) == After(second, g, f, After(first, g, f, before))
  {
    var all := first + second;
    if second == [] {
      assert all == first;
    } else {
      AfterBoth(first, second[..|second| - 1], g, f, before);
      assert all[..|all| - 1] == first + second[..|second| - 1];
    }
  }

  /** A covered register does not depend on its earlier value; an uncovered one keeps it. */
  lemma {:induction false} AfterCovered(settings: seq<Setting>, g: int, f: Field, a: int, b: int)
    ensures !Covered(settings, g, f) ==> After(settings, g, f, a) == a
    ensures Covered(settings, g, f) ==> After(settings, g, f, a) == After(settings, g, f, b)
  {
    if settings != [] {
      var n := |settings| - 1;
      AfterCovered(settings[..n], g, f, a, b);
      assert forall i :: 0 <= i < n ==> settings[..n][i] == settings[i];
      if Covered(settings, g, f) && !Covers(settings[n], g, f) {
        var i :| 0 <= i < |settings| && Covers(settings[i], g, f);
        assert Covers(settings[..n][i], g, f);
      }
      if Covered(settings[..n], g, f) {
        var i :| 0 <= i < n && Covers(settings[..n][i], g, f);
        assert Covers(settings[i], g, f);
      }
    }
  }

  /** A covered register ends at the value of one of the covering settings, and none after it covers. */
  lemma {:induction false} AfterIsSomeSetting(settings: seq<Setting>, g: int, f: Field, before: int) returns (k: int)
    requires Covered(settings, g, f)
    ensures 0 <= k < |settings| && Covers(settings[k], g, f)
    ensures After(settings, g, f, before) == Value(settings[k], f)
    ensures forall i :: k < i < |settings| ==> !Covers(settings[i], g, f)
  {
    var n := |settings| - 1;
    var i :| 0 <= i < |settings| && Covers(settings[i], g, f);
    if Covers(settings[n], g, f) {
      k := n;
    } else {
      assert settings[..n][i] == settings[i];
      k := AfterIsSomeSetting(settings[..n], g, f, before);
    }
  }
}
