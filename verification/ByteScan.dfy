/** Scanning raw UTF-8 bytes when every keyword is ASCII
    (internal/engine/engine_flat.go, internal/engine/engine_banded_dfa.go). */
module ByteScan {
  import opened Matching
  import opened Automaton
  import opened OutputTables
  import opened Coder
  import opened Engines
  import S = SpeedEngine
  import B = BalancedEngine
  import DoubleArray

  // ----- text as bytes and as runes -----

  const RUNE_ERROR := 0xFFFD

  /** A string decodes into encoded runes and stray bytes, which read as RUNE_ERROR. */
  datatype Unit = Encoded(rune: Rune) | Stray(byte: int)

  predicate UnitOk(u: Unit) {
    match u
    case Encoded(r) => 0 <= r <= 0x10FFFF && !(0xD800 <= r <= 0xDFFF)
    case Stray(b) => 0x80 <= b <= 0xFF
  }

  ghost predicate TextOk(text: seq<Unit>) { forall i :: 0 <= i < |text| ==> UnitOk(text[i]) }

  /** Section 3 of RFC 3629. */
  function Utf8(r: Rune): seq<int>
    requires 0 <= r <= 0x10FFFF
  {
    if r < 0x80 then [r]
    else if r < 0x800 then [0xC0 + r / 0x40, 0x80 + r % 0x40]
    else if r < 0x1_0000 then [0xE0 + r / 0x1000, 0x80 + r / 0x40 % 0x40, 0x80 + r % 0x40]
    else [0xF0 + r / 0x4_0000, 0x80 + r / 0x1000 % 0x40, 0x80 + r / 0x40 % 0x40, 0x80 + r % 0x40]
  }

  function RuneOf(u: Unit): Rune { if u.Encoded? then u.rune else RUNE_ERROR }

  function BytesOf(u: Unit): seq<int>
    requires UnitOk(u)
  {
    if u.Encoded? then Utf8(u.rune) else [u.byte]
  }

  function Runes(text: seq<Unit>): Word {
    if text == [] then [] else Runes(text[..|text| - 1]) + [RuneOf(text[|text| - 1])]
  }

  function Bytes(text: seq<Unit>): Word
    requires TextOk(text)
  {
    if text == [] then [] else Bytes(text[..|text| - 1]) + BytesOf(text[|text| - 1])
  }

  predicate Foreign(w: Word) { forall i :: 0 <= i < |w| ==> RUNE_SELF <= w[i] <= 0xFF }

  /** An ASCII rune is its own byte; every byte of anything else is outside ASCII. */
  lemma BytesOfUnit(u: Unit)
    requires UnitOk(u)
    ensures if RuneOf(u) < RUNE_SELF then BytesOf(u) == [RuneOf(u)] && 0 <= RuneOf(u) else BytesOf(u) != [] && Foreign(BytesOf(u))
  {
  }

  // ----- the same keywords either way -----

  ghost predicate AsciiWords(dict: set<Word>) { forall k, i :: k in dict && 0 <= i < |k| ==> k[i] < RUNE_SELF }

  /** No ASCII keyword reaches back over a rune that is not ASCII. */
  lemma {:induction false} DropForeign(dict: set<Word>, x: Word, t: Word)
    requires AsciiWords(dict) && (x != [] ==> x[|x| - 1] >= RUNE_SELF)
    ensures KeywordSuffixes(dict, x + t) == KeywordSuffixes(dict, t)
  {
    if x == [] {
      assert x + t == t;
    } else {
      assert (x + t)[|x| - 1] == x[|x| - 1];
      assert (x + t)[1..] == x[1..] + t;
      DropForeign(dict, x[1..], t);
    }
  }

  /** The ASCII runes at the end of a text. */
  ghost function AsciiTail(text: seq<Unit>): Word {
    if text == [] || RuneOf(text[|text| - 1]) >= RUNE_SELF then []
    else AsciiTail(text[..|text| - 1]) + [RuneOf(text[|text| - 1])]
  }

  /** Both readings end in the same ASCII runes, after something foreign or nothing. */
  lemma {:induction false} TailSplit(text: seq<Unit>) returns (x: Word, y: Word)
    requires TextOk(text)
    ensures Runes(text) == x + AsciiTail(text) && Bytes(text) == y + AsciiTail(text)
    ensures (x != [] ==> x[|x| - 1] >= RUNE_SELF) && (y != [] ==> y[|y| - 1] >= RUNE_SELF)
  {
    if text == [] {
      x, y := [], [];
    } else {
      var u := text[|text| - 1];
      BytesOfUnit(u);
      if RuneOf(u) >= RUNE_SELF {
        x, y := Runes(text), Bytes(text);
      } else {
        x, y := TailSplit(text[..|text| - 1]);
      }
    }
  }

  lemma SameSuffixes(dict: set<Word>, text: seq<Unit>)
    requires AsciiWords(dict) && TextOk(text)
    ensures KeywordSuffixes(dict, Bytes(text)) == KeywordSuffixes(dict, Runes(text))
  {
    var x, y := TailSplit(text);
    DropForeign(dict, x, AsciiTail(text));
    DropForeign(dict, y, AsciiTail(text));
  }

  lemma FoundStep(dict: set<Word>, w: Word, ch: Rune)
    ensures KeywordList(AllMatches(dict, w + [ch])) == KeywordList(AllMatches(dict, w)) + KeywordSuffixes(dict, w + [ch])
  {
    hide KeywordSuffixes;
    var here := w + [ch];
    assert here[..|w|] == w;
    KeywordListConcat(AllMatches(dict, w), MatchesAtEnd(dict, here));
    KeywordListSpans(KeywordSuffixes(dict, here), |here|);
  }

  /** Foreign bytes add nothing. */
  lemma {:induction false} ForeignAddsNothing(dict: set<Word>, w: Word, more: Word)
    requires AsciiWords(dict) && Foreign(more)
    ensures KeywordList(AllMatches(dict, w + more)) == KeywordList(AllMatches(dict, w))
    decreases |more|
  {
    hide AllMatches, KeywordList, KeywordSuffixes;
    if more == [] {
      assert w + more == w;
    } else {
      var n := |more| - 1;
      var x := w + more[..n];
      ForeignAddsNothing(dict, w, more[..n]);
      assert w + more == x + [more[n]];
      FoundStep(dict, x, more[n]);
      DropForeign(dict, x + [more[n]], []);
      assert x + [more[n]] + [] == x + [more[n]];
      NoSuffixes(dict);
    }
  }

  /** For ASCII keywords, the bytes of a text contain the same keyword occurrences, in
      the same order, as its runes. */
  lemma {:induction false} BytesFindTheSame(dict: set<Word>, text: seq<Unit>)
    requires AsciiWords(dict) && TextOk(text)
    ensures KeywordList(AllMatches(dict, Bytes(text))) == KeywordList(AllMatches(dict, Runes(text)))
  {
    hide AllMatches, KeywordList, KeywordSuffixes;
    if text != [] {
      var front, u := text[..|text| - 1], text[|text| - 1];
      BytesFindTheSame(dict, front);
      BytesOfUnit(u);
      FoundStep(dict, Runes(front), RuneOf(u));
      if RuneOf(u) < RUNE_SELF {
        FoundStep(dict, Bytes(front), RuneOf(u));
        SameSuffixes(dict, text);
      } else {
        ForeignAddsNothing(dict, Bytes(front), BytesOf(u));
        DropForeign(dict, Runes(text), []);
        assert Runes(text) + [] == Runes(text);
        NoSuffixes(dict);
      }
    }
  }

  /** So they contain a keyword if and only if the runes do. */
  lemma BytesContainTheSame(dict: set<Word>, text: seq<Unit>)
    requires AsciiWords(dict) && TextOk(text)
    ensures Occurring(dict, Bytes(text)) <==> Occurring(dict, Runes(text))
  {
    hide AsciiWords, AllMatches, IsOccurrence, KeywordList;
    BytesFindTheSame(dict, text);
    OccursWhenListed(dict, Bytes(text));
    OccursWhenListed(dict, Runes(text));
  }

  lemma OccursWhenListed(dict: set<Word>, w: Word)
    ensures Occurring(dict, w) <==> KeywordList(AllMatches(dict, w)) != []
  {
    var all := AllMatches(dict, w);
    if all != [] {
      AllMatchesExact(dict, w, all[0]);
      assert all[0] in all;
    }
    NoOccurrence(dict, w);
  }

  // ----- the scans -----

  lemma {:induction false} BytesAreBytes(text: seq<Unit>)
    requires TextOk(text)
    ensures ByteText(Bytes(text))
  {
    if text != [] {
      BytesAreBytes(text[..|text| - 1]);
      BytesOfUnit(text[|text| - 1]);
    }
  }

  lemma NothingFound()
    ensures KeywordList([]) == []
  {
  }

  // ----- the speed engine -----

  lemma SpeedIsAscii(e: S.SpeedEngine)
    requires e.Valid() && e.dfa != null && e.coder.asciiOnly
    ensures AsciiWords(e.dict)
  {
    forall k, i | k in e.dict && 0 <= i < |k| ensures k[i] < RUNE_SELF {
      var r := k[i];
      assert r in k && r in e.alphabet;
    }
  }

  lemma SpeedStart(e: S.SpeedEngine)
    requires e.Valid()
    ensures TablesOk(e.dict, e.path, e.out) && Injective(e.path) && 0 in e.path && e.path[0] == Landing(e.dict, [])
  {
  }

  method SpeedItem(e: S.SpeedEngine, state: int, x: int, bytes: bool, ghost w: Word) returns (next: int, hasOut: bool)
    requires e.Valid() && e.dfa != null && state in e.path && e.path[state] == Landing(e.dict, w)
    requires bytes ==> e.coder.asciiOnly && 0 <= x <= 0xFF
    ensures next in e.path && e.path[next] == Landing(e.dict, w + [x])
    ensures hasOut <==> KeywordSuffixes(e.dict, e.path[next]) != []
  {
    hide S.SpeedEngine.Valid, Landing, KeywordSuffixes, IsPath, IsSuffix, IsAlphabet, AlphabetCoder.Valid;
    e.Tables();
    e.NotInAlphabet(x);
    var ai, ok := e.coder.CodeOf(x, bytes, e.alphabet);
    if !ok {
      ForeignRuneLandsAtRoot(e.dict, w, x);
      NoSuffixes(e.dict);
      return 0, false;
    }
    next, hasOut := e.Load(state, ai, w);
  }

  method SpeedScan(e: S.SpeedEngine, text: Word, bytes: bool) returns (matched: seq<Word>)
    requires e.Valid() && e.dfa != null && (bytes ==> e.coder.asciiOnly && ByteText(text))
    ensures matched == KeywordList(AllMatches(e.dict, text))
  {
    hide AllMatches, Landing, KeywordSuffixes, Spans, KeywordList, TablesOk, Injective, S.SpeedEngine.Valid, IsPath, IsSuffix;
    SpeedStart(e);
    matched := [];
    var state := 0;
    assert text[..0] == [];
    ScanStart(e.dict, text, _ => true);
    NothingFound();
    for i := 0 to |text|
      invariant state in e.path && e.path[state] == Landing(e.dict, text[..i])
      invariant matched == KeywordList(AllMatches(e.dict, text[..i]))
    {
      ScanStep(e.dict, text, i);
      var hasOut;
      state, hasOut := SpeedItem(e, state, text[i], bytes, text[..i]);
      if hasOut { matched := AppendChain(e.out, matched, state, e.dict, e.path); }
    }
    assert text[..|text|] == text;
  }

  method SpeedSet(e: S.SpeedEngine, text: Word, bytes: bool, dedupHashMin: int) returns (found: seq<Word>)
    requires e.Valid() && e.dfa != null && (bytes ==> e.coder.asciiOnly && ByteText(text))
    ensures found == Dedup(KeywordList(AllMatches(e.dict, text)))
  {
    hide AllMatches, Landing, KeywordSuffixes, Spans, KeywordList, TablesOk, Injective, S.SpeedEngine.Valid, SetCollector.Valid, Dedup, IsPath, IsSuffix;
    SpeedStart(e);
    var c := new SetCollector();
    c.Fresh(e.out, e.dict, e.path);
    var state := 0;
    assert text[..0] == [];
    ScanStart(e.dict, text, _ => true);
    NothingFound();
    for i := 0 to |text|
      invariant state in e.path && e.path[state] == Landing(e.dict, text[..i])
      invariant e.Valid() && fresh(c) && c.Valid(e.out, e.dict, e.path) && c.reported == KeywordList(AllMatches(e.dict, text[..i]))
    {
      ScanStep(e.dict, text, i);
      var hasOut;
      state, hasOut := SpeedItem(e, state, text[i], bytes, text[..i]);
      if hasOut { c.CollectChain(e.out, state, dedupHashMin, e.dict, e.path); }
    }
    assert text[..|text|] == text;
    c.Result(e.out, e.dict, e.path);
    found := c.out;
  }

  /** The speed engine's find: bytes when the alphabet is ASCII, runes otherwise; both
      give the keywords of the text's runes. */
  method FindSpeed(e: S.SpeedEngine, text: seq<Unit>) returns (matched: seq<Word>)
    requires e.Valid() && TextOk(text)
    ensures matched == KeywordList(AllMatches(e.dict, Runes(text)))
  {
    hide AllMatches, KeywordList, S.SpeedEngine.Valid, AsciiWords, ByteText;
    if e.dfa == null {
      e.NoDictionary(Runes(text));
      NothingFound();
      return [];
    }
    BytesAreBytes(text);
    if e.coder.asciiOnly {
      SpeedIsAscii(e);
      matched := SpeedScan(e, Bytes(text), true);
      BytesFindTheSame(e.dict, text);
    } else {
      matched := SpeedScan(e, Runes(text), false);
    }
  }

  method FindSetSpeed(e: S.SpeedEngine, text: seq<Unit>, dedupHashMin: int) returns (found: seq<Word>)
    requires e.Valid() && TextOk(text)
    ensures found == Dedup(KeywordList(AllMatches(e.dict, Runes(text))))
  {
    hide AllMatches, KeywordList, S.SpeedEngine.Valid, AsciiWords, ByteText;
    if e.dfa == null {
      e.NoDictionary(Runes(text));
      NothingFound();
      return [];
    }
    BytesAreBytes(text);
    if e.coder.asciiOnly {
      SpeedIsAscii(e);
      found := SpeedSet(e, Bytes(text), true, dedupHashMin);
      BytesFindTheSame(e.dict, text);
    } else {
      found := SpeedSet(e, Runes(text), false, dedupHashMin);
    }
  }

  method ContainsSpeed(e: S.SpeedEngine, text: seq<Unit>) returns (found: bool)
    requires e.Valid() && TextOk(text)
    ensures found <==> Occurring(e.dict, Runes(text))
  {
    hide Occurring, S.SpeedEngine.Valid, AsciiWords, ByteText, Bytes, Runes;
    BytesAreBytes(text);
    if e.dfa != null && e.coder.asciiOnly {
      SpeedIsAscii(e);
      found := e.Contains(Bytes(text), true);
      BytesContainTheSame(e.dict, text);
    } else {
      found := e.Contains(Runes(text), false);
    }
  }

  // ----- the balanced engine -----

  lemma BalancedIsAscii(e: B.BalancedEngine)
    requires e.Valid() && e.dat.coder.asciiOnly
    ensures AsciiWords(e.dat.dict)
  {
    e.dat.Shape();
    forall k, i | k in e.dat.dict && 0 <= i < |k| ensures k[i] < RUNE_SELF {
      var r := k[i];
      assert r in k && r in e.dat.runes;
    }
  }

  lemma BalancedStart(e: B.BalancedEngine)
    requires e.Valid()
    ensures TablesOk(e.dat.dict, e.dat.path, e.dat.out) && Injective(e.dat.path) && DoubleArray.DAT_ROOT in e.dat.path
    ensures e.dat.path[DoubleArray.DAT_ROOT] == Landing(e.dat.dict, [])
  {
    e.dat.Shape();
    e.dat.PathsClosed();
  }

  method BalancedScan(e: B.BalancedEngine, text: Word, bytes: bool) returns (matched: seq<Word>)
    requires e.Valid() && (bytes ==> e.dat.coder.asciiOnly && ByteText(text))
    ensures matched == KeywordList(AllMatches(e.dat.dict, text))
  {
    hide AllMatches, Landing, KeywordSuffixes, Spans, KeywordList, TablesOk, Injective, B.BalancedEngine.Valid, IsPath, IsSuffix;
    BalancedStart(e);
    matched := [];
    var state := DoubleArray.DAT_ROOT;
    assert text[..0] == [];
    ScanStart(e.dat.dict, text, _ => true);
    NothingFound();
    for i := 0 to |text|
      invariant state in e.dat.path && e.dat.path[state] == Landing(e.dat.dict, text[..i])
      invariant matched == KeywordList(AllMatches(e.dat.dict, text[..i]))
    {
      ScanStep(e.dat.dict, text, i);
      LandingKeepsOutputs(e.dat.dict, text[..i + 1]);
      var hasOut;
      state, hasOut := e.ScanItem(state, text[i], bytes, text[..i]);
      if hasOut { matched := AppendChain(e.dat.out, matched, state, e.dat.dict, e.dat.path); }
    }
    assert text[..|text|] == text;
  }

  method BalancedSet(e: B.BalancedEngine, text: Word, bytes: bool, dedupHashMin: int) returns (found: seq<Word>)
    requires e.Valid() && (bytes ==> e.dat.coder.asciiOnly && ByteText(text))
    ensures found == Dedup(KeywordList(AllMatches(e.dat.dict, text)))
  {
    hide AllMatches, Landing, KeywordSuffixes, Spans, KeywordList, TablesOk, Injective, B.BalancedEngine.Valid, SetCollector.Valid, Dedup, IsPath, IsSuffix;
    BalancedStart(e);
    var c := new SetCollector();
    c.Fresh(e.dat.out, e.dat.dict, e.dat.path);
    var state := DoubleArray.DAT_ROOT;
    assert text[..0] == [];
    ScanStart(e.dat.dict, text, _ => true);
    NothingFound();
    for i := 0 to |text|
      invariant state in e.dat.path && e.dat.path[state] == Landing(e.dat.dict, text[..i])
      invariant e.Valid() && fresh(c) && c.Valid(e.dat.out, e.dat.dict, e.dat.path)
      invariant c.reported == KeywordList(AllMatches(e.dat.dict, text[..i]))
    {
      ScanStep(e.dat.dict, text, i);
      LandingKeepsOutputs(e.dat.dict, text[..i + 1]);
      var hasOut;
      state, hasOut := e.ScanItem(state, text[i], bytes, text[..i]);
      if hasOut { c.CollectChain(e.dat.out, state, dedupHashMin, e.dat.dict, e.dat.path); }
    }
    assert text[..|text|] == text;
    c.Result(e.dat.out, e.dat.dict, e.dat.path);
    found := c.out;
  }

  /** The balanced engine's find, with the same choice. */
  method FindBalanced(e: B.BalancedEngine, text: seq<Unit>) returns (matched: seq<Word>)
    requires e.Valid() && TextOk(text)
    ensures matched == KeywordList(AllMatches(e.dat.dict, Runes(text)))
  {
    hide AllMatches, KeywordList, B.BalancedEngine.Valid, AsciiWords, ByteText;
    BytesAreBytes(text);
    if e.dat.coder.asciiOnly {
      BalancedIsAscii(e);
      matched := BalancedScan(e, Bytes(text), true);
      BytesFindTheSame(e.dat.dict, text);
    } else {
      matched := BalancedScan(e, Runes(text), false);
    }
  }

  method FindSetBalanced(e: B.BalancedEngine, text: seq<Unit>, dedupHashMin: int) returns (found: seq<Word>)
    requires e.Valid() && TextOk(text)
    ensures found == Dedup(KeywordList(AllMatches(e.dat.dict, Runes(text))))
  {
    hide AllMatches, KeywordList, B.BalancedEngine.Valid, AsciiWords, ByteText;
    BytesAreBytes(text);
    if e.dat.coder.asciiOnly {
      BalancedIsAscii(e);
      found := BalancedSet(e, Bytes(text), true, dedupHashMin);
      BytesFindTheSame(e.dat.dict, text);
    } else {
      found := BalancedSet(e, Runes(text), false, dedupHashMin);
    }
  }

  method ContainsBalanced(e: B.BalancedEngine, text: seq<Unit>) returns (found: bool)
    requires e.Valid() && TextOk(text)
    ensures found <==> Occurring(e.dat.dict, Runes(text))
  {
    hide Occurring, B.BalancedEngine.Valid, AsciiWords, ByteText, Bytes, Runes;
    BytesAreBytes(text);
    if e.dat.coder.asciiOnly {
      BalancedIsAscii(e);
      found := e.Contains(Bytes(text), true);
      BytesContainTheSame(e.dat.dict, text);
    } else {
      found := e.Contains(Runes(text), false);
    }
  }
}
