/** The engine handle and its scans (internal/engine/engine_handle.go).  The three
    implementations repeat the same scan loops around their own step; here the loops
    are written once over that step. */
module Engines {
  import opened Matching
  import opened Automaton
  import opened OutputTables
  import opened Transitions
  import TrieBuild
  import M = MapEngine
  import S = SpeedEngine
  import B = BalancedEngine
  import DoubleArray

  datatype Impl =
    | MapImpl(m: M.MemEfficientEngine)
    | SpeedImpl(s: S.SpeedEngine)
    | BalancedImpl(b: B.BalancedEngine)

  // ----- reference results -----

  function KeywordList(ms: seq<Match>): seq<Word> {
    if ms == [] then [] else [ms[0].keyword] + KeywordList(ms[1..])
  }

  lemma {:induction false} KeywordListConcat(a: seq<Match>, b: seq<Match>)
    ensures KeywordList(a + b) == KeywordList(a) + KeywordList(b)
  {
    if a == [] {
      assert a + b == b;
    } else {
      assert (a + b)[1..] == a[1..] + b;
      KeywordListConcat(a[1..], b);
    }
  }

  /** It lists each match's keyword. */
  lemma {:induction false} KeywordListEach(ms: seq<Match>)
    ensures |KeywordList(ms)| == |ms| && forall i :: 0 <= i < |ms| ==> KeywordList(ms)[i] == ms[i].keyword
  {
    if ms != [] { KeywordListEach(ms[1..]); }
  }

  lemma {:induction false} KeywordListSpans(ks: seq<Word>, end: nat)
    ensures KeywordList(Spans(ks, end)) == ks
  {
    if ks != [] { KeywordListSpans(ks[1..], end); }
  }

  /** One more rune extends the reference by the outputs of the landing state. */
  lemma ScanStep(dict: set<Word>, text: Word, i: nat)
    requires i < |text|
    ensures text[..i + 1] == text[..i] + [text[i]]
    ensures KeywordSuffixes(dict, Landing(dict, text[..i + 1])) == [] ==>
              Spans(KeywordSuffixes(dict, Landing(dict, text[..i + 1])), i + 1) == []
    ensures var now := Spans(KeywordSuffixes(dict, Landing(dict, text[..i + 1])), i + 1);
            && AllMatches(dict, text[..i + 1]) == AllMatches(dict, text[..i]) + now
            && KeywordList(AllMatches(dict, text[..i + 1])) ==
                 KeywordList(AllMatches(dict, text[..i])) + KeywordSuffixes(dict, Landing(dict, text[..i + 1]))
  {
    var here := text[..i + 1];
    assert here[..i] == text[..i] && here == text[..i] + [text[i]];
    LandingKeepsOutputs(dict, here);
    KeywordListSpans(KeywordSuffixes(dict, here), i + 1);
    KeywordListConcat(AllMatches(dict, text[..i]), MatchesAtEnd(dict, here));
  }

  class Engine {
    const impl: Impl
    const root: int
    const maxKeywordRunes: nat
    ghost const dict: set<Word>
    ghost const path: map<int, Word>
    ghost const Repr: set<object?>

    /** Wraps a built implementation. */
    constructor Of(impl: Impl, root: int, maxRunes: nat, ghost dict: set<Word>, ghost path: map<int, Word>, ghost repr: set<object?>)
      ensures this.impl == impl && this.root == root && maxKeywordRunes == maxRunes
      ensures this.dict == dict && this.path == path && Repr == repr
    {
      this.impl, this.root, maxKeywordRunes := impl, root, maxRunes;
      this.dict, this.path, Repr := dict, path, repr;
    }

    ghost predicate Valid()
      reads this, Repr
    {
      && root in path && path[root] == [] && Injective(path)
      && Longest(dict, maxKeywordRunes)
      && match impl
         case MapImpl(m) =>
           && m in Repr && m.bloom in Repr && m.asciiRoot in Repr && m.Valid()
           && dict == m.dict && path == m.path && TablesOk(dict, path, m.trie.out)
         case SpeedImpl(s) =>
           && s in Repr && s.coder in Repr && s.coder.asciiCode in Repr && s.dfa in Repr && s.Valid()
           && dict == s.dict && path == s.path && TablesOk(dict, path, s.out)
         case BalancedImpl(b) =>
           && b in Repr && b.band in Repr && b.bandOff in Repr
           && b.dat in Repr && b.dat.coder in Repr && b.dat.coder.asciiCode in Repr && b.Valid()
           && dict == b.dat.dict && path == b.dat.path && TablesOk(dict, path, b.dat.out)
    }

    function Out(): Outputs
      requires Valid()
      reads this, Repr
    {
      match impl
      case MapImpl(m) => m.trie.out
      case SpeedImpl(s) => s.out
      case BalancedImpl(b) => b.dat.out
    }

    lemma OutOk()
      requires Valid()
      ensures TablesOk(dict, path, Out()) && Injective(path) && root in path && path[root] == Landing(dict, [])
    {
    }

    lemma LongestOk()
      requires Valid()
      ensures Longest(dict, maxKeywordRunes)
    {
    }

    /** One step of the implementation's automaton. */
    method Step(state: int, ch: Rune, ghost w: Word) returns (next: int, out: bool)
      requires Valid() && state in path && path[state] == Landing(dict, w)
      ensures next in path && path[next] == Landing(dict, w + [ch])
      ensures !out ==> KeywordSuffixes(dict, path[next]) == []
    {
      hide M.MemEfficientEngine.Valid, S.SpeedEngine.Valid, B.BalancedEngine.Valid, TablesOk;
      match impl
      case MapImpl(m) => next, out := m.Step(state, ch, w);
      case SpeedImpl(s) => next, out := s.Step(state, ch, w);
      case BalancedImpl(b) => next, out := b.Step(state, ch, w);
    }

    /** Every keyword occurrence, in scan order. */
    method Find(text: Word) returns (matched: seq<Word>)
      requires Valid()
      ensures matched == KeywordList(AllMatches(dict, text)) && |matched| == |AllMatches(dict, text)|
      ensures forall n :: 0 <= n < |matched| ==> matched[n] == AllMatches(dict, text)[n].keyword
    {
      hide Valid, AllMatches, Landing, KeywordSuffixes, Spans;
      OutOk();
      matched := [];
      var state, i := root, 0;
      assert text[..0] == [];
      ScanStart(dict, text, _ => true);
      while i < |text|
        invariant 0 <= i <= |text| && state in path && path[state] == Landing(dict, text[..i])
        invariant matched == KeywordList(AllMatches(dict, text[..i]))
      {
        var out;
        ScanStep(dict, text, i);
        state, out := Step(state, text[i], text[..i]);
        if out { matched := AppendChain(Out(), matched, state, dict, path); }
        i := i + 1;
      }
      assert text[..i] == text;
      KeywordListEach(AllMatches(dict, text));
    }

    /** Each matched keyword once, in first-match order. */
    method FindSet(text: Word, dedupHashMin: int) returns (found: seq<Word>)
      requires Valid()
      ensures found == Dedup(KeywordList(AllMatches(dict, text)))
    {
      hide Valid, SetCollector.Valid, AllMatches, Landing, KeywordSuffixes, Spans, Dedup, TablesOk, Injective;
      OutOk();
      var c := new SetCollector();
      c.Fresh(Out(), dict, path);
      var state, i := root, 0;
      assert text[..0] == [];
      ScanStart(dict, text, _ => true);
      while i < |text|
        invariant 0 <= i <= |text| && state in path && path[state] == Landing(dict, text[..i])
        invariant Valid() && fresh(c) && c.Valid(Out(), dict, path)
        invariant c.reported == KeywordList(AllMatches(dict, text[..i]))
      {
        var out;
        ScanStep(dict, text, i);
        state, out := Step(state, text[i], text[..i]);
        if out { c.CollectChain(Out(), state, dedupHashMin, dict, path); }
        i := i + 1;
      }
      assert text[..i] == text;
      c.Result(Out(), dict, path);
      found := c.out;
    }

    /** The start offsets of every occurrence, grouped by keyword. */
    method FindIndex(text: Word) returns (matched: map<Word, seq<int>>)
      requires Valid()
      ensures matched == IndexAll(map[], AllMatches(dict, text))
    {
      hide Valid, AllMatches, Landing, KeywordSuffixes, KeywordList;
      OutOk();
      matched := map[];
      var state, i := root, 0;
      assert text[..0] == [];
      ScanStart(dict, text, _ => true);
      while i < |text|
        invariant 0 <= i <= |text| && state in path && path[state] == Landing(dict, text[..i])
        invariant matched == IndexAll(map[], AllMatches(dict, text[..i]))
      {
        var out;
        ScanStep(dict, text, i);
        state, out := Step(state, text[i], text[..i]);
        IndexAllSplit(map[], AllMatches(dict, text[..i]), Spans(KeywordSuffixes(dict, path[state]), i + 1));
        if out { matched := IndexChain(Out(), matched, state, i + 1, dict, path); }
        i := i + 1;
      }
      assert text[..i] == text;
    }

    /** Hands every match to a callback, in scan order, until it asks to stop. */
    method MatchString(text: Word, accept: seq<Match> -> bool) returns (sent: seq<Match>)
      requires Valid()
      ensures sent == Delivered(AllMatches(dict, text), accept)
    {
      hide Valid, DeliveredFrom, Stops, AllMatches, Landing, KeywordSuffixes, Spans, KeywordList;
      OutOk();
      sent := [];
      var state, i := root, 0;
      assert text[..0] == [];
      ScanStart(dict, text, accept);
      while i < |text|
        invariant 0 <= i <= |text| && state in path && path[state] == Landing(dict, text[..i])
        invariant sent == DeliveredFrom([], AllMatches(dict, text[..i]), accept) == AllMatches(dict, text[..i])
        invariant !Stops([], AllMatches(dict, text[..i]), accept)
      {
        var out, more := true, true;
        ScanStep(dict, text, i);
        state, out := Step(state, text[i], text[..i]);
        EmitMore(dict, text, i, accept);
        if out {
          sent, more := EmitChain(Out(), sent, state, i + 1, accept, dict, path);
          if !more { return; }
        }
        i := i + 1;
      }
      assert text[..i] == text;
    }

    /** Whether any keyword occurs.  The speed and balanced engines answer from their
        output flags; the map engine asks for the first match. */
    method Contains(text: Word) returns (found: bool)
      requires Valid()
      ensures found <==> Occurring(dict, text)
    {
      hide M.MemEfficientEngine.Valid, S.SpeedEngine.Valid, B.BalancedEngine.Valid, TablesOk, AllMatches, IsOccurrence;
      match impl
      case MapImpl(_) => found := AnyMatch(text);
      case SpeedImpl(s) => found := s.Contains(text, false);
      case BalancedImpl(b) => found := b.Contains(text, false);
    }

    /** Presence by a callback that stops at the first match. */
    method AnyMatch(text: Word) returns (found: bool)
      requires Valid()
      ensures found <==> Occurring(dict, text)
    {
      hide Valid;
      var sent := MatchString(text, _ => false);
      found := sent != [];
      var all := AllMatches(dict, text);
      if all != [] {
        AllMatchesExact(dict, text, all[0]);
        assert all[0] in all;
      }
      if m :| IsOccurrence(dict, text, m) { AllMatchesExact(dict, text, m); }
    }
  }

  datatype Preset = Speed | Balanced(bandDepth: int) | MemoryEfficient(numBits: nat, hashes: nat, hashPair: Rune -> (nat, nat))

  /** Builds the engine a preset selects; null stands for the speed engine's panic,
      which happens exactly on a trie with too many states to pack. */
  method Build(preset: Preset, keywords: seq<Word>) returns (e: Engine?)
    requires forall k, i :: k in keywords && 0 <= i < |k| ==> 0 <= k[i]
    requires preset.MemoryEfficient? ==> preset.numBits > 0
    ensures e == null <==> preset.Speed? && |TriePaths(set k | k in keywords && k != [])| >= 0x4000_0000
    ensures e != null ==> e.Valid() && forall k :: k in e.dict <==> k in keywords && k != []
  {
    DictionaryMembers(keywords);
    var longest := MaxRunes(keywords);
    if preset.Speed? {
      e := BuildSpeed(keywords, longest);
    } else if preset.Balanced? {
      e := BuildBalanced(preset.bandDepth, keywords, longest);
    } else {
      e := BuildMap(preset.numBits, preset.hashes, preset.hashPair, keywords, longest);
    }
  }

  lemma DictionaryMembers(keywords: seq<Word>)
    ensures TrieBuild.Dictionary(keywords) == set k | k in keywords && k != []
  {
  }

  method BuildMap(numBits: nat, hashes: nat, hashPair: Rune -> (nat, nat), keywords: seq<Word>, longest: nat)
    returns (e: Engine)
    requires numBits > 0 && Longest(TrieBuild.Dictionary(keywords), longest)
    ensures e.Valid() && e.dict == TrieBuild.Dictionary(keywords)
  {
    var m := new M.MemEfficientEngine(keywords, numBits, hashes, hashPair);
    TrieBuild.LinkedTables(m.trie, m.path, m.dict);
    e := new Engine.Of(MapImpl(m), 0, longest, m.dict, m.path, {m, m.bloom, m.asciiRoot});
  }

  method BuildSpeed(keywords: seq<Word>, longest: nat) returns (e: Engine?)
    requires forall k, i :: k in keywords && 0 <= i < |k| ==> 0 <= k[i]
    requires Longest(TrieBuild.Dictionary(keywords), longest)
    ensures e == null <==> |TriePaths(TrieBuild.Dictionary(keywords))| >= HAS_OUTPUT_BIT
    ensures e != null ==> e.Valid() && e.dict == TrieBuild.Dictionary(keywords)
  {
    var s := new S.SpeedEngine(keywords);
    NumberingSize(s.dict, 0, s.path);
    if !s.packed { return null; }
    e := new Engine.Of(SpeedImpl(s), 0, longest, s.dict, s.path, {s, s.coder, s.coder.asciiCode, s.dfa});
  }

  method BuildBalanced(bandDepth: int, keywords: seq<Word>, longest: nat) returns (e: Engine)
    requires forall k, i :: k in keywords && 0 <= i < |k| ==> 0 <= k[i]
    requires Longest(TrieBuild.Dictionary(keywords), longest)
    ensures e.Valid() && e.dict == TrieBuild.Dictionary(keywords)
  {
    var b := new B.BalancedEngine(keywords, bandDepth);
    b.dat.Shape();
    b.dat.PathsClosed();
    e := new Engine.Of(BalancedImpl(b), DoubleArray.DAT_ROOT, longest, b.dat.dict, b.dat.path,
                       {b, b.band, b.bandOff, b.dat, b.dat.coder, b.dat.coder.asciiCode});
  }

  method MaxRunes(keywords: seq<Word>) returns (n: nat)
    ensures Longest(TrieBuild.Dictionary(keywords), n)
  {
    n := 0;
    for i := 0 to |keywords|
      invariant Longest(TrieBuild.Dictionary(keywords[..i]), n)
    {
      assert keywords[..i + 1] == keywords[..i] + [keywords[i]];
      assert forall k :: k in TrieBuild.Dictionary(keywords[..i + 1]) <==>
                           k in TrieBuild.Dictionary(keywords[..i]) || (k == keywords[i] && k != []);
      if |keywords[i]| > n { n := |keywords[i]|; }
    }
    assert keywords[..|keywords|] == keywords;
  }

  ghost predicate Longest(dict: set<Word>, n: nat) {
    (forall k :: k in dict ==> |k| <= n) && (n > 0 ==> exists k :: k in dict && |k| == n)
  }

  lemma ScanStart(dict: set<Word>, text: Word, accept: seq<Match> -> bool)
    ensures AllMatches(dict, text[..0]) == [] && DeliveredFrom([], [], accept) == [] && !Stops([], [], accept)
  {
  }

  /** Feeding the matches at one more position. */
  lemma EmitMore(dict: set<Word>, text: Word, i: nat, accept: seq<Match> -> bool)
    requires i < |text| && !Stops([], AllMatches(dict, text[..i]), accept)
    ensures var before, now := AllMatches(dict, text[..i]), Spans(KeywordSuffixes(dict, Landing(dict, text[..i + 1])), i + 1);
            && (Stops(before, now, accept) ==> Delivered(AllMatches(dict, text), accept) == DeliveredFrom(before, now, accept))
            && (!Stops(before, now, accept) ==>
                  && DeliveredFrom(before, now, accept) == before + now == AllMatches(dict, text[..i + 1])
                  && DeliveredFrom([], AllMatches(dict, text[..i + 1]), accept) == before + now
                  && !Stops([], AllMatches(dict, text[..i + 1]), accept))
            && (KeywordSuffixes(dict, Landing(dict, text[..i + 1])) == [] ==> now == [] && !Stops(before, now, accept))
  {
    var before, now := AllMatches(dict, text[..i]), Spans(KeywordSuffixes(dict, Landing(dict, text[..i + 1])), i + 1);
    ScanStep(dict, text, i);
    var rest := MatchesFrom(dict, text, i + 1);
    DeliveredSplit([], before, now, accept);
    assert [] + before == before;
    DeliveredSplit(before, now, [], accept);
    assert now + [] == now;
    DeliveredSplit([], before + now, rest, accept);
  }

  /** The matches that end after `i`. */
  lemma {:induction false} MatchesFrom(dict: set<Word>, text: Word, i: nat) returns (rest: seq<Match>)
    requires i <= |text|
    ensures AllMatches(dict, text) == AllMatches(dict, text[..i]) + rest
    decreases |text| - i
  {
    hide AllMatches, KeywordSuffixes, Landing, Spans, KeywordList;
    if i == |text| {
      assert text[..i] == text;
      rest := [];
    } else {
      var more := MatchesFrom(dict, text, i + 1);
      ScanStep(dict, text, i);
      rest := Spans(KeywordSuffixes(dict, Landing(dict, text[..i + 1])), i + 1) + more;
    }
  }
}
