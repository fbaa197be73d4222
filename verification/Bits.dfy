/** Bit tables.  A 64-bit word is modelled as the set of its one bits, so that bit
    `i` of a table lives in word `i / 64` at position `i % 64`, as in the code. */
module Bits {

  type Bits64 = w: set<nat> | forall b :: b in w ==> b < 64

  function Empty(words: nat): (bits: seq<Bits64>)
    ensures |bits| == words
    ensures forall i: nat :: i / 64 < words ==> !Test(bits, i)
  {
    seq(words, _ => {})
  }

  predicate Test(bits: seq<Bits64>, i: nat)
    requires i / 64 < |bits|
  {
    i % 64 in bits[i / 64]
  }

  function Set(bits: seq<Bits64>, i: nat): (r: seq<Bits64>)
    requires i / 64 < |bits|
    ensures |r| == |bits|
    ensures forall j: nat :: j / 64 < |bits| ==> (Test(r, j) <==> j == i || Test(bits, j))
  {
    bits[i / 64 := bits[i / 64] + {i % 64}]
  }

  /** The number of words that hold `n` bits. */
  function WordsFor(n: nat): (words: nat)
    ensures forall i: nat :: i < n ==> i / 64 < words
  {
    (n + 63) / 64
  }
}
