/**
 The log buffer of the miner process: it keeps the last bytes of everything written.
 */
module BoundedBuffer {

  /** The last n elements, or all of them. */
  function Last<T>(s: seq<T>, n: nat): (r: seq<T>)
    ensures |r| == if |s| < n then |s| else n
  {
    if |s| <= n then s else s[|s| - n..]
  }

  function Concat(writes: seq<seq<bv8>>): seq<bv8> {
    if writes == [] then [] else Concat(writes[..|writes| - 1]) + writes[|writes| - 1]
  }

  class Buffer {
    const limit: nat
    var data: seq<bv8>
    /** Everything written since the last reset. */
    ghost var writes: seq<seq<bv8>>

    ghost predicate Valid()
      reads this
    {
      data == Last(Concat(writes), limit)
    }

    constructor (limit: nat)
      ensures Valid() && this.limit == limit && writes == []
    {
      this.limit := limit;
      data := [];
      writes := [];
    }

    method Reset()
      modifies this
      ensures Valid() && writes == [] && data == []
    {
      data := [];
      writes := [];
    }

    method Write(value: seq<bv8>) returns (written: nat)
      requires Valid()
      modifies this
      ensures Valid() && writes == old(writes) + [value] && written == |value|
      ensures data == Last(old(data) + value, limit)
    {
      written := |value|;
      writes := writes + [value];
      assert writes[..|writes| - 1] == old(writes);
      LastOfAppended(Concat(old(writes)), value, limit);
      if |value| >= limit {
        data := value[|value| - limit..];
        return;
      }
      var overflow := |data| + |value| - limit;
      if overflow > 0 {
        var remaining := data[overflow..];
        data := remaining;
      }
      data := data + value;
    }
  }

  /** Nothing is lost by forgetting early: the end of an extended text needs only the end of the text. */
  lemma LastOfAppended<T>(s: seq<T>, value: seq<T>, n: nat)
    ensures Last(s + value, n) == Last(Last(s, n) + value, n)
    ensures |value| >= n ==> Last(s + value, n) == value[|value| - n..]
    ensures |value| < n && |Last(s, n)| + |value| > n ==>
              Last(s + value, n) == Last(s, n)[|Last(s, n)| + |value| - n..] + value
  {
  }
}
