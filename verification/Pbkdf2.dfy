/**
 Password derivation: the hand-written loops against section 5.2 of RFC 8018, over an
 arbitrary pseudorandom function with 32-octet results.
 */
module Pbkdf2 {

  type Octets = seq<bv8>
  type Prf = (Octets, Octets) -> Octets

  const HASH_LENGTH := 32

  ghost predicate Sized(prf: Prf) {
    forall key, message :: |prf(key, message)| == HASH_LENGTH
  }

  // ----- the standard -----

  /** INT(i): four octets, most significant first. */
  function Int4(i: nat): Octets {
    [(i / 0x100_0000 % 0x100) as bv8, (i / 0x1_0000 % 0x100) as bv8, (i / 0x100 % 0x100) as bv8, (i % 0x100) as bv8]
  }

  function Xor(a: Octets, b: Octets): (r: Octets)
    requires |a| == |b|
    ensures |r| == |a|
  {
    seq(|a|, k requires 0 <= k < |a| => a[k] ^ b[k])
  }

  /** U_j of block i. */
  function U(prf: Prf, password: Octets, salt: Octets, i: nat, j: nat): Octets
    requires j >= 1
  {
    if j == 1 then prf(password, salt + Int4(i)) else prf(password, U(prf, password, salt, i, j - 1))
  }

  /** T_i = U_1 xor ... xor U_c. */
  ghost function T(prf: Prf, password: Octets, salt: Octets, c: nat, i: nat): (r: Octets)
    requires Sized(prf) && c >= 1
    ensures |r| == HASH_LENGTH
  {
    if c == 1 then U(prf, password, salt, i, 1) else Xor(T(prf, password, salt, c - 1, i), U(prf, password, salt, i, c))
  }

  /** T_1 || ... || T_n */
  ghost function Blocks(prf: Prf, password: Octets, salt: Octets, c: nat, n: nat): (r: Octets)
    requires Sized(prf) && c >= 1
    ensures |r| == n * HASH_LENGTH
  {
    if n == 0 then [] else Blocks(prf, password, salt, c, n - 1) + T(prf, password, salt, c, n)
  }

  function BlockCount(length: nat): (n: nat)
    ensures n * HASH_LENGTH >= length
    ensures length > 0 ==> (n - 1) * HASH_LENGTH < length
  {
    (length + HASH_LENGTH - 1) / HASH_LENGTH
  }

  ghost function DerivedKey(prf: Prf, password: Octets, salt: Octets, c: nat, length: nat): (r: Octets)
    requires Sized(prf) && c >= 1
    ensures |r| == length
  {
    Blocks(prf, password, salt, c, BlockCount(length))[..length]
  }

  // ----- the program -----

  function Rounds(iterations: int): nat {
    if iterations < 1 then 1 else iterations
  }

  /** One block: the running value is changed in place. */
  method Block(prf: Prf, password: Octets, salt: Octets, iterations: int, block: nat) returns (value: array<bv8>)
    requires Sized(prf)
    ensures fresh(value) && value[..] == T(prf, password, salt, Rounds(iterations), block)
  {
    var u := prf(password, salt + Int4(block));
    value := new bv8[|u|](k requires 0 <= k < |u| => u[k]);
    assert value[..] == u;
    var iteration := 1;
    while iteration < iterations
      invariant 1 <= iteration <= Rounds(iterations)
      invariant u == U(prf, password, salt, block, iteration)
      invariant fresh(value) && value.Length == HASH_LENGTH
      invariant value[..] == T(prf, password, salt, iteration, block)
    {
      u := prf(password, u);
      ghost var was := value[..];
      for index := 0 to value.Length
        invariant forall k :: 0 <= k < index ==> value[k] == was[k] ^ u[k]
        invariant forall k :: index <= k < value.Length ==> value[k] == was[k]
      {
        value[index] := value[index] ^ u[index];
      }
      assert value[..] == Xor(was, u);
      iteration := iteration + 1;
    }
  }

  /** derivePassword */
  method DerivePassword(prf: Prf, password: Octets, salt: Octets, iterations: int, length: nat) returns (key: Octets)
    requires Sized(prf)
    ensures key == DerivedKey(prf, password, salt, Rounds(iterations), length)
  {
    var blocks := BlockCount(length);
    var result: Octets := [];
    for block := 1 to blocks + 1
      invariant result == Blocks(prf, password, salt, Rounds(iterations), block - 1)
    {
      var value := Block(prf, password, salt, iterations, block);
      result := result + value[..];
    }
    key := result[..length];
  }

  // ----- what the standard's definition gives -----

  /** The exclusive or of octet k over the first c rounds. */
  ghost function XorOfRounds(prf: Prf, password: Octets, salt: Octets, c: nat, i: nat, k: nat): bv8
    requires Sized(prf) && k < HASH_LENGTH
  {
    if c == 0 then 0 else XorOfRounds(prf, password, salt, c - 1, i, k) ^ U(prf, password, salt, i, c)[k]
  }

  lemma {:induction false} BlockOctet(prf: Prf, password: Octets, salt: Octets, c: nat, i: nat, k: nat)
    requires Sized(prf) && c >= 1 && k < HASH_LENGTH
    ensures T(prf, password, salt, c, i)[k] == XorOfRounds(prf, password, salt, c, i, k)
  {
    if c == 1 {
      var first := U(prf, password, salt, i, 1)[k];
      assert XorOfRounds(prf, password, salt, 0, i, k) == 0;
      assert 0 ^ first == first;
    } else {
      BlockOctet(prf, password, salt, c - 1, i, k);
    }
  }

  lemma {:induction false} BlocksAt(prf: Prf, password: Octets, salt: Octets, c: nat, n: nat, k: nat)
    requires Sized(prf) && c >= 1 && k < n * HASH_LENGTH
    ensures Blocks(prf, password, salt, c, n)[k] == T(prf, password, salt, c, k / HASH_LENGTH + 1)[k % HASH_LENGTH]
  {
    if k < (n - 1) * HASH_LENGTH {
      BlocksAt(prf, password, salt, c, n - 1, k);
    }
  }

  /** Octet k of a derived key is the exclusive or of that octet's column over all rounds of its block. */
  lemma DerivedOctet(prf: Prf, password: Octets, salt: Octets, c: nat, length: nat, k: nat)
    requires Sized(prf) && c >= 1 && k < length
    ensures DerivedKey(prf, password, salt, c, length)[k]
         == XorOfRounds(prf, password, salt, c, k / HASH_LENGTH + 1, k % HASH_LENGTH)
  {
    BlocksAt(prf, password, salt, c, BlockCount(length), k);
    BlockOctet(prf, password, salt, c, k / HASH_LENGTH + 1, k % HASH_LENGTH);
  }

  /** A shorter key is the beginning of a longer one. */
  lemma ShorterIsPrefix(prf: Prf, password: Octets, salt: Octets, c: nat, short: nat, long: nat)
    requires Sized(prf) && c >= 1 && short <= long
    ensures DerivedKey(prf, password, salt, c, short) == DerivedKey(prf, password, salt, c, long)[..short]
  {
    var a, b := DerivedKey(prf, password, salt, c, short), DerivedKey(prf, password, salt, c, long);
    forall k | 0 <= k < short ensures a[k] == b[k] {
      DerivedOctet(prf, password, salt, c, short, k);
      DerivedOctet(prf, password, salt, c, long, k);
    }
  }

  /** The number that octets spell, most significant first. */
  function Spelled(octets: Octets): nat {
    if octets == [] then 0 else 0x100 * Spelled(octets[..|octets| - 1]) + Number(octets[|octets| - 1])
  }

  function Number(octet: bv8): nat { octet as nat }

  lemma NumberOf(x: nat)
    requires x < 0x100
    ensures Number(x as bv8) == x
  {
  }

  lemma SpelledMore(front: Octets, last: bv8)
    ensures Spelled(front + [last]) == 0x100 * Spelled(front) + Number(last)
  {
    assert (front + [last])[..|front|] == front;
  }

  lemma Spelled4(a: bv8, b: bv8, c: bv8, d: bv8)
    ensures Spelled([a, b, c, d]) ==
              0x100 * (0x100 * (0x100 * Number(a) + Number(b)) + Number(c)) + Number(d)
  {
    hide Spelled, Number;
    assert [] + [a] == [a] && [a] + [b] == [a, b] && [a, b] + [c] == [a, b, c] && [a, b, c] + [d] == [a, b, c, d];
    assert Spelled([]) == 0 by { NothingSpelled(); }
    SpelledMore([], a);
    SpelledMore([a], b);
    SpelledMore([a, b], c);
    SpelledMore([a, b, c], d);
  }

  lemma NothingSpelled()
    ensures Spelled([]) == 0
  {
  }

  /** The last octet of a number, and the rest, for each width. */
  lemma Peel32(i: nat)
    ensures i % 0x1_0000_0000 == 0x100 * (i / 0x100 % 0x100_0000) + i % 0x100
  {
    var high, low := i / 0x100, i % 0x100;
    var q, r := high / 0x100_0000, high % 0x100_0000;
    assert i == 0x100 * high + low && high == 0x100_0000 * q + r;
    Low32(i, q, 0x100 * r + low);
  }

  lemma Low32(i: nat, q: nat, low: nat)
    requires i == 0x1_0000_0000 * q + low && low < 0x1_0000_0000
    ensures i % 0x1_0000_0000 == low
  {
  }

  lemma Peel24(i: nat)
    ensures i % 0x100_0000 == 0x100 * (i / 0x100 % 0x1_0000) + i % 0x100
  {
    var high, low := i / 0x100, i % 0x100;
    var q, r := high / 0x1_0000, high % 0x1_0000;
    assert i == 0x100 * high + low && high == 0x1_0000 * q + r;
    Low24(i, q, 0x100 * r + low);
  }

  lemma Low24(i: nat, q: nat, low: nat)
    requires i == 0x100_0000 * q + low && low < 0x100_0000
    ensures i % 0x100_0000 == low
  {
  }

  lemma Peel16(i: nat)
    ensures i % 0x1_0000 == 0x100 * (i / 0x100 % 0x100) + i % 0x100
  {
    var high, low := i / 0x100, i % 0x100;
    var q, r := high / 0x100, high % 0x100;
    assert i == 0x100 * high + low && high == 0x100 * q + r;
    Low16(i, q, 0x100 * r + low);
  }

  lemma Low16(i: nat, q: nat, low: nat)
    requires i == 0x1_0000 * q + low && low < 0x1_0000
    ensures i % 0x1_0000 == low
  {
  }

  lemma ByteByByte(i: nat)
    ensures i / 0x100 / 0x100 == i / 0x1_0000 && i / 0x1_0000 / 0x100 == i / 0x100_0000
  {
  }

  /** INT(i) is four octets that spell i, the most significant first, as far as 32 bits go. */
  lemma Int4Spells(i: nat)
    ensures |Int4(i)| == 4 && Spelled(Int4(i)) == i % 0x1_0000_0000
  {
    hide Spelled;
    var a, b, c, d := i / 0x100_0000 % 0x100, i / 0x1_0000 % 0x100, i / 0x100 % 0x100, i % 0x100;
    ByteByByte(i);
    Peel32(i);
    Peel24(i / 0x100);
    Peel16(i / 0x1_0000);
    SpelledNumbers(a, b, c, d);
  }

  lemma SpelledNumbers(a: nat, b: nat, c: nat, d: nat)
    requires a < 0x100 && b < 0x100 && c < 0x100 && d < 0x100
    ensures Spelled([a as bv8, b as bv8, c as bv8, d as bv8]) == 0x100 * (0x100 * (0x100 * a + b) + c) + d
  {
    hide Spelled, Number;
    NumberOf(a);
    NumberOf(b);
    NumberOf(c);
    NumberOf(d);
    Spelled4(a as bv8, b as bv8, c as bv8, d as bv8);
  }
}
