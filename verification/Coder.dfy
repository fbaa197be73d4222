/** Mapping runes to compact alphabet indices (internal/engine/coder.go). */
module Coder {
  import opened Matching

  /** Runes below this value are single UTF-8 bytes. */
  const RUNE_SELF := 0x80

  /** Raw bytes in place of runes. */
  predicate ByteText(bytes: Word) { forall i :: 0 <= i < |bytes| ==> 0 <= bytes[i] <= 0xFF }

  /** The runes of an alphabet are distinct code points. */
  ghost predicate IsAlphabet(runes: seq<Rune>) {
    && (forall i :: 0 <= i < |runes| ==> 0 <= runes[i])
    && (forall i, j :: 0 <= i < j < |runes| ==> runes[i] != runes[j])
  }

  class AlphabetCoder {
    var index: map<Rune, int>
    var asciiCode: array<int>
    var asciiOnly: bool

    ghost predicate Valid(runes: seq<Rune>)
      reads this, asciiCode
    {
      Filled(runes, |runes|)
    }

    /** The tables hold the first `n` runes. */
    ghost predicate Filled(runes: seq<Rune>, n: nat)
      requires n <= |runes|
      reads this, asciiCode
    {
      && asciiCode.Length == RUNE_SELF
      && (forall i :: 0 <= i < n ==> runes[i] in index && index[runes[i]] == i)
      && (forall r :: r in index ==> 0 <= index[r] < n && runes[index[r]] == r)
      && (forall r :: 0 <= r < RUNE_SELF ==> asciiCode[r] == if r in index then index[r] + 1 else 0)
      && (asciiOnly <==> forall i :: 0 <= i < n ==> runes[i] < RUNE_SELF)
    }

    /** Fills the map and the ASCII table from the alphabet. */
    constructor (runes: seq<Rune>)
      requires IsAlphabet(runes)
      ensures Valid(runes) && fresh(asciiCode)
    {
      index := map[];
      asciiCode := new int[RUNE_SELF](_ => 0);
      asciiOnly := true;
      new;
      var i := 0;
      while i < |runes|
        invariant 0 <= i <= |runes| && Filled(runes, i) && fresh(asciiCode)
      {
        Put(runes, i);
        i := i + 1;
      }
    }

    /** Enters one rune. */
    method Put(runes: seq<Rune>, i: nat)
      requires IsAlphabet(runes) && i < |runes| && Filled(runes, i)
      modifies `index, `asciiOnly, asciiCode
      ensures Filled(runes, i + 1)
    {
      var r := runes[i];
      index := index[r := i];
      if r < RUNE_SELF { asciiCode[r] := i + 1; } else { asciiOnly := false; }
    }

    /** The index of a rune; negative runes from a caller's stream are foreign. */
    method Code(ch: Rune, ghost runes: seq<Rune>) returns (code: int, ok: bool)
      requires Valid(runes) && IsAlphabet(runes)
      ensures ok <==> ch in runes
      ensures ok ==> 0 <= code < |runes| && runes[code] == ch
    {
      if 0 <= ch < RUNE_SELF {
        var x := asciiCode[ch];
        return x - 1, x != 0;
      }
      if ch in index { return index[ch], true; }
      return 0, false;
    }

    /** The index of a raw byte, valid when every alphabet rune is ASCII. */
    method CodeByte(b: int, ghost runes: seq<Rune>) returns (code: int, ok: bool)
      requires Valid(runes) && IsAlphabet(runes) && asciiOnly && 0 <= b < 256
      ensures ok <==> b in runes
      ensures ok ==> 0 <= code < |runes| && runes[code] == b
    {
      if b >= RUNE_SELF { return 0, false; }
      var x := asciiCode[b];
      return x - 1, x != 0;
    }

    /** A text item's index: of a byte, or of a rune. */
    method CodeOf(x: int, bytes: bool, ghost runes: seq<Rune>) returns (code: int, ok: bool)
      requires Valid(runes) && IsAlphabet(runes) && (bytes ==> asciiOnly && 0 <= x <= 0xFF)
      ensures ok <==> x in runes
      ensures ok ==> 0 <= code < |runes| && runes[code] == x
    {
      if bytes { code, ok := CodeByte(x, runes); } else { code, ok := Code(x, runes); }
    }
  }

  /** The alphabet of a keyword list, each rune once (the code sorts it; the order
      plays no role). */
  method CollectRunes(keywords: seq<Word>) returns (runes: seq<Rune>)
    requires forall k, i :: k in keywords && 0 <= i < |k| ==> 0 <= k[i]
    ensures IsAlphabet(runes)
    ensures forall r :: r in runes <==> exists k :: k in keywords && r in k
  {
    var runeSet: set<Rune> := {};
    for i := 0 to |keywords|
      invariant forall r :: r in runeSet <==> exists k :: k in keywords[..i] && r in k
      invariant forall r :: r in runeSet ==> 0 <= r
    {
      var kw := keywords[i];
      assert keywords[..i + 1] == keywords[..i] + [kw];
      runeSet := runeSet + set r | r in kw;
    }
    assert keywords[..|keywords|] == keywords;
    runes := [];
    var rest := runeSet;
    while |rest| > 0
      invariant rest <= runeSet && IsAlphabet(runes)
      invariant forall r :: r in runes <==> r in runeSet && r !in rest
      decreases |rest|
    {
      SomeRune(rest);
      var r :| r in rest;
      runes := runes + [r];
      rest := rest - {r};
    }
  }
}
