/** The rune pre-filter (internal/engine/engine_bloom.go).  It has no false
    negatives for any pair of hash functions and any table size. */
module Bloom {
  import opened Matching
  import Bits

  const WRAP: nat := 0x1_0000_0000_0000_0000

  /** The `i`th probe position of a rune hashed to `h`, with 64-bit wrap-around. */
  function Position(h: (nat, nat), i: nat, numBits: nat): (pos: nat)
    requires numBits > 0
    ensures pos < numBits
  {
    (h.0 + i * h.1) % WRAP % numBits
  }

  class BloomFilter {
    var bits: seq<Bits.Bits64>
    const numBits: nat
    const hashes: nat
    const hashPair: Rune -> (nat, nat)
    ghost var added: set<Rune>

    ghost predicate Valid()
      reads this
    {
      && numBits > 0 && |bits| == Bits.WordsFor(numBits)
      && (forall r, i: nat :: r in added && i < hashes ==> Bits.Test(bits, Position(hashPair(r), i, numBits)))
    }

    constructor (numBits: nat, hashes: nat, hashPair: Rune -> (nat, nat))
      requires numBits > 0
      ensures Valid() && added == {}
    {
      this.numBits, this.hashes, this.hashPair := numBits, hashes, hashPair;
      bits := Bits.Empty(Bits.WordsFor(numBits));
      added := {};
    }

    method Add(r: Rune)
      requires Valid()
      modifies this
      ensures Valid() && added == old(added) + {r}
    {
      var h := hashPair(r);
      var i := 0;
      while i < hashes
        invariant i <= hashes && |bits| == Bits.WordsFor(numBits) && added == old(added)
        invariant forall j: nat :: j < i ==> Bits.Test(bits, Position(h, j, numBits))
        invariant forall p: nat :: p / 64 < |bits| && Bits.Test(old(bits), p) ==> Bits.Test(bits, p)
      {
        bits := Bits.Set(bits, Position(h, i, numBits));
        i := i + 1;
      }
      added := added + {r};
    }

    /** Answers no exactly when one of the rune's bits is clear, and so never for an
        added rune. */
    method MightContain(r: Rune) returns (b: bool)
      requires Valid()
      ensures r in added ==> b
      ensures b <==> forall i: nat :: i < hashes ==> Bits.Test(bits, Position(hashPair(r), i, numBits))
    {
      var h := hashPair(r);
      var i := 0;
      while i < hashes
        invariant i <= hashes && forall j: nat :: j < i ==> Bits.Test(bits, Position(h, j, numBits))
      {
        if !Bits.Test(bits, Position(h, i, numBits)) { return false; }
        i := i + 1;
      }
      return true;
    }
  }
}
