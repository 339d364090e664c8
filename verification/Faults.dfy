/** Operations that may fail, numbered in the order in which they are attempted. */
module Faults {
  /** No operation from one number up to another failed. */
  ghost predicate Quiet(faults: nat -> bool, from: int, to: int) {
    forall n: nat :: from <= n < to ==> !faults(n)
  }

  lemma NothingYet(faults: nat -> bool, n: int)
    ensures Quiet(faults, n, n)
  {
  }

  lemma OneMore(faults: nat -> bool, from: int, n: nat)
    requires from <= n
    ensures Quiet(faults, from, n + 1) <==> Quiet(faults, from, n) && !faults(n)
  {
  }

  lemma QuietBoth(faults: nat -> bool, from: int, mid: int, to: int)
    requires from <= mid <= to
    ensures Quiet(faults, from, to) <==> Quiet(faults, from, mid) && Quiet(faults, mid, to)
  {
  }
}
