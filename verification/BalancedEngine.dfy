/** The balanced engine: a double-array trie whose shallow states have precomputed
    DFA rows (internal/engine/engine_banded_dfa.go). */
module BalancedEngine {
  import opened Matching
  import opened Automaton
  import opened Coder
  import opened Transitions
  import opened TrieBuild
  import opened DoubleArray

  const BAND_NOT_BANDED := -1
  const MAX_INT32 := 0x7FFF_FFFF

  /** Whether position `s` gets a precomputed row; gaps in the packing never do. */
  predicate InBand(check: seq<int>, depth: seq<int>, s: int, bandDepth: int)
    requires 0 <= s < |check| && s < |depth|
  {
    !(s != DAT_ROOT && check[s] == 0) && depth[s] <= bandDepth
  }

  /** How many of the positions from the root up to `s` get a row. */
  function RowsBefore(check: seq<int>, depth: seq<int>, s: int, bandDepth: int): nat
    requires s <= |check| && s <= |depth|
    decreases s
  {
    if s <= DAT_ROOT then 0
    else RowsBefore(check, depth, s - 1, bandDepth) + if InBand(check, depth, s - 1, bandDepth) then 1 else 0
  }

  lemma RowsStep(check: seq<int>, depth: seq<int>, s: int, bandDepth: int)
    requires 0 <= s < |check| && s < |depth|
    ensures RowsBefore(check, depth, DAT_ROOT, bandDepth) == 0
    ensures var more := if InBand(check, depth, s, bandDepth) then 1 else 0;
            DAT_ROOT <= s ==> RowsBefore(check, depth, s + 1, bandDepth) == RowsBefore(check, depth, s, bandDepth) + more
  {
  }

  lemma {:induction false} RowsMonotone(check: seq<int>, depth: seq<int>, s: int, t: int, bandDepth: int)
    requires s <= t <= |check| && t <= |depth|
    ensures RowsBefore(check, depth, s, bandDepth) <= RowsBefore(check, depth, t, bandDepth)
    decreases t - s
  {
    if s < t { RowsMonotone(check, depth, s, t - 1, bandDepth); }
  }

  method BandRows(check: seq<int>, depth: seq<int>, size: int, bandDepth: int) returns (rows: nat)
    requires DAT_ROOT <= size <= |check| && size <= |depth|
    ensures rows == RowsBefore(check, depth, size, bandDepth)
  {
    rows := 0;
    var s := DAT_ROOT;
    while s < size
      invariant DAT_ROOT <= s <= size && rows == RowsBefore(check, depth, s, bandDepth)
    {
      if InBand(check, depth, s, bandDepth) { rows := rows + 1; }
      s := s + 1;
    }
  }

  class BalancedEngine {
    const dat: DoubleArrayTrie
    var band: array<int>
    var bandOff: array<int>
    const bandDepth: int

    ghost predicate Valid()
      reads this, band, bandOff, dat, dat.coder, dat.coder.asciiCode
    {
      && dat.Valid() && bandOff.Length == dat.size
      && BandOk(dat.dict, dat.path, dat.runes, band[..], bandOff[..], dat.size)
    }

    constructor (keywords: seq<Word>, bandDepth: int)
      requires forall k, i :: k in keywords && 0 <= i < |k| ==> 0 <= k[i]
      ensures Valid() && dat.dict == Dictionary(keywords)
    {
      this.bandDepth := bandDepth;
      dat := new DoubleArrayTrie(keywords);
      band, bandOff := new int[0], new int[0];
      new;
      BuildBand();
    }

    /** Fills the band.  A dictionary too large for packed entries, or for row offsets
        that index the band, runs entirely on the failure walk. */
    method BuildBand()
      requires dat.Valid() && DepthsOk(dat.path, dat.depth) && dat.size <= |dat.depth|
      modifies this
      ensures Valid()
    {
      dat.Shape();
      bandOff := new int[dat.size](_ => BAND_NOT_BANDED);
      band := new int[0];
      NoBand(dat.dict, dat.path, dat.runes, band[..], bandOff[..], dat.size);
      if dat.size <= DAT_ROOT + 1 { return; }
      var alphaSize := |dat.runes|;
      var rows := BandRows(dat.check, dat.depth, dat.size, bandDepth);
      if dat.size >= HAS_OUTPUT_BIT || alphaSize == 0 || rows > MAX_INT32 / alphaSize { return; }
      band := new int[rows * alphaSize];
      FillBand(band, bandOff, rows);
    }

    method FillBand(band: array<int>, bandOff: array<int>, rows: nat)
      requires dat.Valid() && DepthsOk(dat.path, dat.depth) && dat.size <= |dat.depth| && dat.size < HAS_OUTPUT_BIT
      requires bandOff.Length == dat.size && band != bandOff && band != dat.coder.asciiCode && bandOff != dat.coder.asciiCode
      requires forall t :: 0 <= t < dat.size ==> bandOff[t] == BAND_NOT_BANDED
      requires DAT_ROOT < dat.size <= |dat.check| && rows == RowsBefore(dat.check, dat.depth, dat.size, bandDepth)
      requires band.Length == rows * |dat.runes|
      modifies band, bandOff
      ensures dat.Valid() && BandOk(dat.dict, dat.path, dat.runes, band[..], bandOff[..], dat.size)
    {
      hide DoubleArrayTrie.Valid, BandOk, RowOk, Below, DepthsOk, RowsBefore;
      dat.Shape();
      NoBand(dat.dict, dat.path, dat.runes, band[..], bandOff[..], DAT_ROOT);
      RowsStep(dat.check, dat.depth, DAT_ROOT, bandDepth);
      var alphaSize := |dat.runes|;
      var off, s := 0, DAT_ROOT;
      while s < dat.size
        invariant DAT_ROOT <= s <= dat.size && off == RowsBefore(dat.check, dat.depth, s, bandDepth) * alphaSize
        invariant dat.Valid() && BandOk(dat.dict, dat.path, dat.runes, band[..], bandOff[..], s)
        invariant Below(bandOff[..], s, off, alphaSize)
      {
        RowsStep(dat.check, dat.depth, s, bandDepth);
        if InBand(dat.check, dat.depth, s, bandDepth) {
          RowsMonotone(dat.check, dat.depth, s + 1, dat.size, bandDepth);
          OneMoreRow(RowsBefore(dat.check, dat.depth, s, bandDepth), rows, alphaSize);
          ghost var band0, off0 := band[..], bandOff[..];
          bandOff[s] := off;
          FillBandRow(band, s, off);
          BandGrows(dat.dict, dat.path, dat.runes, band0, off0, band[..], s, off);
          off := off + alphaSize;
        } else {
          BandSkips(dat.dict, dat.path, dat.runes, band[..], bandOff[..], s, off);
        }
        s := s + 1;
      }
    }

    method FillBandRow(band: array<int>, s: int, off: int)
      requires dat.Valid() && s in dat.path && dat.size < HAS_OUTPUT_BIT && band != dat.coder.asciiCode
      requires 0 <= off && off + |dat.runes| <= band.Length
      modifies band
      ensures RowOk(dat.dict, dat.path, dat.runes, band[..], s, off)
      ensures forall j :: 0 <= j < band.Length && (j < off || j >= off + |dat.runes|) ==> band[j] == old(band[j])
    {
      hide EntryOk, DoubleArrayTrie.Valid;
      var ai := 0;
      while ai < |dat.runes|
        invariant 0 <= ai <= |dat.runes|
        invariant dat.Valid()
        invariant forall j :: 0 <= j < band.Length && (j < off || j >= off + ai) ==> band[j] == old(band[j])
        invariant forall a {:trigger dat.runes[a]} :: 0 <= a < ai ==>
                    EntryOk(dat.dict, dat.path, s, dat.runes[a], band[off + a])
      {
        var entry := BandEntry(s, ai);
        band[off + ai] := entry;
        ai := ai + 1;
      }
    }

    method BandEntry(s: int, ai: int) returns (entry: int)
      requires dat.Valid() && s in dat.path && 0 <= ai < |dat.runes| && dat.size < HAS_OUTPUT_BIT
      ensures EntryOk(dat.dict, dat.path, s, dat.runes[ai], entry)
    {
      var next := dat.Follow(s, ai);
      entry := PackState(next, next < |dat.hasOutput| && dat.hasOutput[next]);
    }

    /** One transition: a band load, or a goto followed by the failure walk. */
    method StepCode(state: int, code: int) returns (next: int, hasOut: bool)
      requires Valid() && state in dat.path && 0 <= code < |dat.runes|
      ensures next in dat.path && dat.path[next] == Landing(dat.dict, dat.path[state] + [dat.runes[code]])
      ensures hasOut <==> KeywordSuffixes(dat.dict, dat.path[next]) != []
    {
      dat.Shape();
      var off := bandOff[state];
      if off != BAND_NOT_BANDED {
        assert RowOk(dat.dict, dat.path, dat.runes, band[..], state, off);
        assert EntryOk(dat.dict, dat.path, state, dat.runes[code], band[..][off + code]);
        var entry := band[off + code];
        return Target(entry), HasOutput(entry);
      }
      next, hasOut := Unbanded(state, code);
    }

    method Unbanded(state: int, code: int) returns (next: int, hasOut: bool)
      requires Valid() && state in dat.path && 0 <= code < |dat.runes|
      ensures next in dat.path && dat.path[next] == Landing(dat.dict, dat.path[state] + [dat.runes[code]])
      ensures hasOut <==> KeywordSuffixes(dat.dict, dat.path[next]) != []
    {
      dat.GotoFaithful(state, code);
      dat.Shape();
      next := Goto(dat.base, dat.check, dat.size, state, code);
      if next == 0 { next := dat.Follow(state, code); }
      if next == 0 { next := DAT_ROOT; }
      hasOut := next < |dat.hasOutput| && dat.hasOutput[next];
    }

    /** One scan step; a rune outside the alphabet resets to the root. */
    method Step(state: int, ch: Rune, ghost w: Word) returns (next: int, hasOut: bool)
      requires Valid() && state in dat.path && dat.path[state] == Landing(dat.dict, w)
      ensures next in dat.path && dat.path[next] == Landing(dat.dict, w + [ch])
      ensures hasOut <==> KeywordSuffixes(dat.dict, dat.path[next]) != []
    {
      dat.Shape();
      var code, ok := dat.coder.Code(ch, dat.runes);
      if !ok {
        ForeignRuneLandsAtRoot(dat.dict, w, ch);
        return DAT_ROOT, false;
      }
      LandingStep(dat.dict, w, ch);
      next, hasOut := StepCode(state, code);
    }

    lemma Tables()
      requires Valid()
      ensures IsAlphabet(dat.runes) && dat.coder.Valid(dat.runes)
      ensures DAT_ROOT in dat.path && dat.path[DAT_ROOT] == [] == Landing(dat.dict, [])
    {
      dat.Shape();
    }

    lemma NotInAlphabet(x: Rune)
      requires Valid()
      ensures x !in dat.runes ==> forall k :: k in dat.dict ==> x !in k
    {
      dat.Shape();
    }

    /** One item of a scan over bytes or runes. */
    method ScanItem(state: int, x: int, bytes: bool, ghost w: Word) returns (next: int, hasOut: bool)
      requires Valid() && state in dat.path && dat.path[state] == Landing(dat.dict, w) && (bytes ==> dat.coder.asciiOnly && 0 <= x <= 0xFF)
      ensures next in dat.path && dat.path[next] == Landing(dat.dict, w + [x])
      ensures hasOut <==> KeywordSuffixes(dat.dict, w + [x]) != []
    {
      hide Valid, Landing, KeywordSuffixes, IsPath, IsSuffix, IsAlphabet, AlphabetCoder.Valid;
      Tables();
      NotInAlphabet(x);
      LandingKeepsOutputs(dat.dict, w + [x]);
      var code, ok := dat.coder.CodeOf(x, bytes, dat.runes);
      if !ok {
        ForeignRuneLandsAtRoot(dat.dict, w, x);
        NoSuffixes(dat.dict);
        return DAT_ROOT, false;
      }
      LandingStep(dat.dict, w, x);
      next, hasOut := StepCode(state, code);
    }

    /** Presence without positions: the scan with a callback that stops at once, over
        the bytes or the runes of a text. */
    method Contains(text: Word, bytes: bool) returns (found: bool)
      requires Valid() && (bytes ==> dat.coder.asciiOnly && ByteText(text))
      ensures found <==> Occurring(dat.dict, text)
    {
      hide Valid, AllMatches, Landing, KeywordSuffixes, IsOccurrence, IsPath, IsSuffix, MatchesAtEnd, IsAlphabet, AlphabetCoder.Valid;
      Tables();
      var state := DAT_ROOT;
      assert text[..0] == [];
      NoMatches(dat.dict);
      for i := 0 to |text|
        invariant state in dat.path && dat.path[state] == Landing(dat.dict, text[..i]) && AllMatches(dat.dict, text[..i]) == []
      {
        assert text[..i + 1] == text[..i] + [text[i]];
        OneMore(dat.dict, text, i + 1);
        var hasOut;
        state, hasOut := ScanItem(state, text[i], bytes, text[..i]);
        if hasOut { return true; }
      }
      assert text[..|text|] == text;
      NoOccurrence(dat.dict, text);
      return false;
    }
  }

  /** Every banded position below `n` has a correct row. */
  ghost predicate BandOk(dict: set<Word>, path: map<int, Word>, runes: seq<Rune>, band: seq<int>, bandOff: seq<int>, n: int) {
    n <= |bandOff| &&
    forall s {:trigger bandOff[s]} :: s in path && 0 <= s < n && bandOff[s] != BAND_NOT_BANDED ==>
      RowOk(dict, path, runes, band, s, bandOff[s])
  }

  /** Rows assigned so far end at `off`; positions from `n` on have none. */
  ghost predicate Below(bandOff: seq<int>, n: int, off: int, width: nat) {
    && (forall t :: 0 <= t < n && t < |bandOff| && bandOff[t] != BAND_NOT_BANDED ==> 0 <= bandOff[t] && bandOff[t] + width <= off)
    && (forall t :: n <= t < |bandOff| && 0 <= t ==> bandOff[t] == BAND_NOT_BANDED)
  }

  lemma NoBand(dict: set<Word>, path: map<int, Word>, runes: seq<Rune>, band: seq<int>, bandOff: seq<int>, n: int)
    requires n <= |bandOff| && forall t :: 0 <= t < |bandOff| ==> bandOff[t] == BAND_NOT_BANDED
    ensures BandOk(dict, path, runes, band, bandOff, n) && Below(bandOff, n, 0, |runes|)
  {
  }

  lemma OneMoreRow(n: nat, rows: nat, width: nat)
    requires n + 1 <= rows
    ensures 0 <= n * width && n * width + width <= rows * width && (n + 1) * width == n * width + width
  {
    assert (n + 1) * width <= rows * width;
  }

  lemma BandGrows(dict: set<Word>, path: map<int, Word>, runes: seq<Rune>, band: seq<int>, bandOff: seq<int>,
                  band': seq<int>, s: int, off: int)
    requires BandOk(dict, path, runes, band, bandOff, s) && Below(bandOff, s, off, |runes|)
    requires 0 <= s < |bandOff| && 0 <= off && |band| == |band'|
    requires RowOk(dict, path, runes, band', s, off)
    requires forall j :: 0 <= j < |band| && (j < off || j >= off + |runes|) ==> band'[j] == band[j]
    ensures BandOk(dict, path, runes, band', bandOff[s := off], s + 1) && Below(bandOff[s := off], s + 1, off + |runes|, |runes|)
  {
    var bandOff' := bandOff[s := off];
    forall t | t in path && 0 <= t < s + 1 && bandOff'[t] != BAND_NOT_BANDED
      ensures RowOk(dict, path, runes, band', t, bandOff'[t])
    {
      if t != s {
        assert bandOff'[t] == bandOff[t];
        RowKept(dict, path, runes, band, band', t, bandOff[t], off);
      }
    }
  }

  lemma BandSkips(dict: set<Word>, path: map<int, Word>, runes: seq<Rune>, band: seq<int>, bandOff: seq<int>, s: int, off: int)
    requires BandOk(dict, path, runes, band, bandOff, s) && Below(bandOff, s, off, |runes|) && 0 <= s < |bandOff|
    ensures BandOk(dict, path, runes, band, bandOff, s + 1) && Below(bandOff, s + 1, off, |runes|)
  {
    assert bandOff[s] == BAND_NOT_BANDED;
  }
}
