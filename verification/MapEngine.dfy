/** The memory-efficient engine: the trie walked as an NFA behind a root pre-filter
    (internal/engine/engine_map.go). */
module MapEngine {
  import opened Matching
  import opened Automaton
  import opened TrieBuild
  import Bloom
  import Coder

  /** A rune can start a match only if some keyword starts with it. */
  ghost predicate StartsKeyword(dict: set<Word>, r: Rune) {
    exists k :: k in dict && k != [] && k[0] == r
  }

  /** A rune that starts no keyword leaves a scan at the root. */
  lemma RootStays(dict: set<Word>, w: Word, ch: Rune)
    requires Landing(dict, w) == [] && !StartsKeyword(dict, ch)
    ensures Landing(dict, w + [ch]) == []
  {
    hide Landing, StartsKeyword;
    LandingStep(dict, w, ch);
    assert [] + [ch] == [ch];
    NoFirstRune(dict, ch);
  }

  lemma NoFirstRune(dict: set<Word>, ch: Rune)
    requires !StartsKeyword(dict, ch)
    ensures Landing(dict, [ch]) == []
  {
    assert !IsPath(dict, [ch]) by {
      if IsPath(dict, [ch]) {
        var k :| k in dict && [ch] <= k;
        FirstOf(k, ch);
      }
    }
    assert [ch][1..] == [];
  }

  lemma FirstOf(k: Word, ch: Rune)
    requires [ch] <= k
    ensures k != [] && k[0] == ch
  {
    assert k[0] == [ch][0];
  }

  class MemEfficientEngine {
    var trie: MapTrie
    var bloom: Bloom.BloomFilter
    var asciiRoot: array<bool>
    ghost var dict: set<Word>
    ghost var path: map<int, Word>

    ghost predicate Valid()
      reads this, bloom, asciiRoot
    {
      && Linked(trie, path, dict)
      && bloom.Valid() && asciiRoot.Length == Coder.RUNE_SELF
      && (forall r :: StartsKeyword(dict, r) ==> r in bloom.added)
      && (forall r :: 0 <= r < Coder.RUNE_SELF ==> (asciiRoot[r] <==> StartsKeyword(dict, r)))
    }

    /** Builds the engine from any keyword sequence; empty keywords are skipped and
        repeats are harmless.  The Bloom sizes come from floating-point formulas, so
        they are parameters here. */
    constructor (keywords: seq<Word>, numBits: nat, hashes: nat, hashPair: Rune -> (nat, nat))
      requires numBits > 0
      ensures Valid() && dict == Dictionary(keywords) && fresh(bloom) && fresh(asciiRoot)
    {
      var grown, p := InsertAll(keywords);
      var linked, _ := LinkAll(grown, p, Dictionary(keywords));
      trie, path, dict := linked, p, Dictionary(keywords);
      bloom := new Bloom.BloomFilter(numBits, hashes, hashPair);
      asciiRoot := new bool[Coder.RUNE_SELF](_ => false);
      new;
      FillFilter(keywords);
    }

    /** Records the first rune of every keyword in both filters. */
    method FillFilter(keywords: seq<Word>)
      requires Linked(trie, path, dict) && dict == Dictionary(keywords)
      requires bloom.Valid() && asciiRoot.Length == Coder.RUNE_SELF && forall r :: 0 <= r < Coder.RUNE_SELF ==> !asciiRoot[r]
      modifies bloom, asciiRoot
      ensures Valid()
    {
      for i := 0 to |keywords|
        invariant bloom.Valid()
        invariant forall r :: StartsKeyword(Dictionary(keywords[..i]), r) ==> r in bloom.added
        invariant forall r :: 0 <= r < Coder.RUNE_SELF ==> (asciiRoot[r] <==> StartsKeyword(Dictionary(keywords[..i]), r))
      {
        assert keywords[..i + 1] == keywords[..i] + [keywords[i]];
        if keywords[i] != [] {
          var r := keywords[i][0];
          bloom.Add(r);
          if 0 <= r < Coder.RUNE_SELF { asciiRoot[r] := true; }
        }
      }
      assert keywords[..|keywords|] == keywords;
    }

    /** The pre-filter only ever skips runes that start no keyword, and every such ASCII
        rune. */
    method SkipAtRoot(atRoot: bool, ch: Rune) returns (skip: bool)
      requires Valid()
      ensures skip ==> atRoot && !StartsKeyword(dict, ch)
      ensures atRoot && 0 <= ch < Coder.RUNE_SELF && !StartsKeyword(dict, ch) ==> skip
    {
      if !atRoot { return false; }
      if 0 <= ch < Coder.RUNE_SELF { return !asciiRoot[ch]; }
      var b := bloom.MightContain(ch);
      return !b;
    }

    /** Advances one rune along failure links. */
    method Advance(state: int, ch: Rune, ghost w: Word) returns (next: int)
      requires Valid() && state in path && path[state] == Landing(dict, w)
      ensures next in path && path[next] == Landing(dict, w + [ch])
    {
      LandingStep(dict, w, ch);
      next := state;
      while true
        invariant next in path
        invariant Landing(dict, w + [ch]) == Landing(dict, path[next] + [ch])
        decreases |path[next]|
      {
        assert LinkedNode(trie, path, dict, next) && PlainNode(trie, path, dict, next);
        assert EdgeOk(dict, path, next, trie.nodes[next].Edges(), ch);
        var (nx, ok) := trie.nodes[next].Next(ch);
        if ok {
          assert HasState(path, path[next] + [ch]);
          return nx;
        }
        if next == 0 {
          assert (path[next] + [ch])[1..] == [];
          return next;
        }
        assert path[next] != [];
        FailStep(dict, path[next], ch);
        next := trie.nodes[next].fail;
      }
    }

    /** One scan step; `out` is false only when the rune was skipped at the root. */
    method Step(state: int, ch: Rune, ghost w: Word) returns (next: int, out: bool)
      requires Valid() && state in path && path[state] == Landing(dict, w)
      ensures next in path && path[next] == Landing(dict, w + [ch])
      ensures !out ==> KeywordSuffixes(dict, path[next]) == []
    {
      var skip := SkipAtRoot(state == 0, ch);
      if skip {
        RootStays(dict, w, ch);
        return state, false;
      }
      next := Advance(state, ch, w);
      out := true;
    }
  }
}
