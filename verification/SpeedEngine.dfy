/** The speed engine: a full DFA in one flat table (internal/engine/engine_flat.go). */
module SpeedEngine {
  import opened Matching
  import opened Automaton
  import opened OutputTables
  import opened TrieBuild
  import opened Coder
  import opened Transitions

  lemma RowStart(s: nat, n: nat, width: nat)
    requires s < n
    ensures 0 <= s * width && s * width + width <= n * width
  {
    assert s * width + width == (s + 1) * width;
    assert (s + 1) * width <= n * width;
  }

  /** Distinct rows do not overlap. */
  lemma RowsApart(s: nat, t: nat, width: nat)
    requires s != t
    ensures s * width + width <= t * width || t * width + width <= s * width
  {
    if s < t { RowStart(s, t, width); } else { RowStart(t, s, width); }
  }

  class SpeedEngine {
    var packed: bool
    var dfa: array?<int>
    var alphabet: seq<Rune>
    var out: Outputs
    var coder: AlphabetCoder
    ghost var dict: set<Word>
    ghost var path: map<int, Word>

    ghost predicate Valid()
      reads this, coder, coder.asciiCode, dfa
    {
      if dfa == null then dict == {} && path == map[0 := []] && TablesOk(dict, path, out)
      else
        && IsAlphabet(alphabet) && coder.Valid(alphabet)
        && (forall k, r :: k in dict && r in k ==> r in alphabet)
        && Injective(path) && 0 in path && path[0] == [] && TablesOk(dict, path, out)
        && (forall s :: s in path ==> 0 <= s)
        && (forall s {:trigger RowOk(dict, path, alphabet, dfa[..], s, s * |alphabet|)} :: s in path ==>
              RowOk(dict, path, alphabet, dfa[..], s, s * |alphabet|))
    }

    /** Builds the DFA.  `packed` is false when the trie has too many states to pack,
        where the code panics. */
    constructor (keywords: seq<Word>)
      requires forall k, i :: k in keywords && 0 <= i < |k| ==> 0 <= k[i]
      ensures dict == Dictionary(keywords) && (packed ==> Valid())
      ensures packed <==> |path| < HAS_OUTPUT_BIT
      ensures Numbering(dict, 0, path)
    {
      packed := true;
      dfa, alphabet, out := null, [], Outputs([0], [OUT_NONE], [], []);
      coder := new AlphabetCoder([]);
      dict, path := Dictionary(keywords), map[0 := []];
      new;
      if keywords == [] {
        assert StateOk(dict, path, out, 0);
        OnlyRoot();
      } else {
        Fill(keywords);
      }
    }

    method Fill(keywords: seq<Word>)
      requires forall k, i :: k in keywords && 0 <= i < |k| ==> 0 <= k[i]
      requires dict == Dictionary(keywords)
      modifies this
      ensures dict == Dictionary(keywords) && Numbering(dict, 0, path)
      ensures (packed <==> |path| < HAS_OUTPUT_BIT) && (packed ==> Valid())
    {
      hide EntryOk, Bfs, LinkedNode, PlainNode, RowOk, OwnOk, LinkOk, Linked, Plain, TablesOk, Injective, Numbering, Growing;
      var runes := CollectRunes(keywords);
      var grown, p := InsertAll(keywords);
      var trie, order := LinkAll(grown, p, dict);
      LinkedTables(trie, p, dict);
      LinkedStates(trie, p, dict);
      alphabet, out, path := runes, trie.out, p;
      coder := new AlphabetCoder(runes);
      packed := |trie.nodes| < HAS_OUTPUT_BIT;
      if packed {
        dfa := FillTable(trie, order, runes, p, dict);
      }
    }

    /** One scan step: a single table load for a rune of the alphabet, the root for
        any other rune. */
    method Step(state: int, ch: Rune, ghost w: Word) returns (next: int, hasOut: bool)
      requires Valid() && state in path && path[state] == Landing(dict, w)
      ensures next in path && path[next] == Landing(dict, w + [ch])
      ensures hasOut <==> KeywordSuffixes(dict, path[next]) != []
    {
      if dfa == null {
        ForeignRuneLandsAtRoot(dict, w, ch);
        return state, false;
      }
      var ai, ok := coder.Code(ch, alphabet);
      if !ok {
        ForeignRuneLandsAtRoot(dict, w, ch);
        return 0, false;
      }
      next, hasOut := Load(state, ai, w);
    }

    /** The raw table entry of a transition. */
    method Entry(state: int, ai: int, ghost w: Word) returns (v: int)
      requires Valid() && dfa != null && state in path && path[state] == Landing(dict, w) && 0 <= ai < |alphabet|
      ensures Target(v) in path && path[Target(v)] == Landing(dict, w + [alphabet[ai]])
      ensures HasOutput(v) <==> KeywordSuffixes(dict, path[Target(v)]) != []
      ensures !HasOutput(v) ==> Target(v) == v
    {
      hide TablesOk, Injective, IsAlphabet, Landing, KeywordSuffixes;
      var off := state * |alphabet|;
      assert RowOk(dict, path, alphabet, dfa[..], state, off);
      assert EntryOk(dict, path, state, alphabet[ai], dfa[..][off + ai]);
      LandingStep(dict, w, alphabet[ai]);
      v := dfa[off + ai];
    }

    method Load(state: int, ai: int, ghost w: Word) returns (next: int, hasOut: bool)
      requires Valid() && dfa != null && state in path && path[state] == Landing(dict, w) && 0 <= ai < |alphabet|
      ensures next in path && path[next] == Landing(dict, w + [alphabet[ai]])
      ensures hasOut <==> KeywordSuffixes(dict, path[next]) != []
    {
      var v := Entry(state, ai, w);
      next, hasOut := Target(v), HasOutput(v);
    }

    lemma Tables()
      requires Valid() && dfa != null
      ensures IsAlphabet(alphabet) && coder.Valid(alphabet) && 0 in path && path[0] == [] == Landing(dict, [])
    {
    }

    lemma NoDictionary(text: Word)
      requires Valid() && dfa == null
      ensures AllMatches(dict, text) == [] && forall m :: !IsOccurrence(dict, text, m)
    {
      if AllMatches(dict, text) != [] { AllMatchesExact(dict, text, AllMatches(dict, text)[0]); }
    }

    lemma NotInAlphabet(x: Rune)
      requires Valid() && dfa != null
      ensures x !in alphabet ==> forall k :: k in dict ==> x !in k
    {
    }

    /** One item of a presence scan: a hit, or the next state, which needs no masking. */
    method Probe(state: int, x: int, bytes: bool, ghost w: Word) returns (next: int, hit: bool)
      requires Valid() && dfa != null && state in path && path[state] == Landing(dict, w) && (bytes ==> coder.asciiOnly && 0 <= x <= 0xFF)
      ensures hit <==> KeywordSuffixes(dict, w + [x]) != []
      ensures !hit ==> next in path && path[next] == Landing(dict, w + [x])
    {
      hide Valid, Landing, KeywordSuffixes, IsPath, IsSuffix, IsAlphabet, AlphabetCoder.Valid;
      Tables();
      NotInAlphabet(x);
      LandingKeepsOutputs(dict, w + [x]);
      var ai, ok := coder.CodeOf(x, bytes, alphabet);
      if !ok {
        ForeignRuneLandsAtRoot(dict, w, x);
        NoSuffixes(dict);
        return 0, false;
      }
      var v := Entry(state, ai, w);
      return v, HasOutput(v);
    }

    /** Presence without positions: stops at the first entry whose flag is set, over the
        bytes or the runes of a text. */
    method Contains(text: Word, bytes: bool) returns (found: bool)
      requires Valid() && (bytes && dfa != null ==> coder.asciiOnly && ByteText(text))
      ensures found <==> Occurring(dict, text)
    {
      hide Valid, AllMatches, Landing, KeywordSuffixes, IsOccurrence, IsPath, IsSuffix, MatchesAtEnd, IsAlphabet, AlphabetCoder.Valid;
      if dfa == null {
        NoDictionary(text);
        return false;
      }
      Tables();
      var state := 0;
      assert text[..0] == [];
      NoMatches(dict);
      for i := 0 to |text|
        invariant state in path && path[state] == Landing(dict, text[..i]) && AllMatches(dict, text[..i]) == []
      {
        assert text[..i + 1] == text[..i] + [text[i]];
        OneMore(dict, text, i + 1);
        var hit;
        state, hit := Probe(state, text[i], bytes, text[..i]);
        if hit { return true; }
      }
      assert text[..|text|] == text;
      NoOccurrence(dict, text);
      return false;
    }
  }

  lemma OnlyRoot()
    ensures Numbering({}, 0, map[0 := []])
  {
    var path: map<int, Word> := map[0 := []];
    assert path[0] == [] && HasState(path, []);
  }

  lemma LinkedStates(t: MapTrie, path: map<int, Word>, dict: set<Word>)
    requires Linked(t, path, dict)
    ensures |path| == |t.nodes| && Numbering(dict, 0, path) && Injective(path) && 0 in path && path[0] == []
    ensures forall s :: s in path ==> 0 <= s
  {
    StateCount(path, |t.nodes|);
    NumberingPrefixClosed(dict, 0, path);
  }

  lemma {:induction false} StateCount(path: map<int, Word>, n: nat)
    requires forall s :: s in path <==> 0 <= s < n
    ensures |path| == n
  {
    SomeRune(path.Keys);
    assert |path| == |path.Keys|;
    if n > 0 {
      var rest := path - {n - 1};
      StateCount(rest, n - 1);
      assert path == rest[n - 1 := path[n - 1]];
    }
  }

  // ----- filling the table -----

  ghost predicate RowsDone(trie: MapTrie, path: map<int, Word>, dict: set<Word>, alphabet: seq<Rune>,
                           table: seq<int>, order: seq<int>, n: nat)
    requires n <= |order|
  {
    forall i {:trigger order[i]} :: 0 <= i < n ==> RowOk(dict, path, alphabet, table, order[i], order[i] * |alphabet|)
  }

  /** Fills all rows breadth-first: a failure row is always complete before it is
      copied from. */
  method FillTable(trie: MapTrie, order: seq<int>, alphabet: seq<Rune>, ghost path: map<int, Word>, ghost dict: set<Word>)
    returns (dfa: array<int>)
    requires Linked(trie, path, dict) && Bfs(path, order, |order|, {}) && |trie.nodes| < HAS_OUTPUT_BIT
    ensures fresh(dfa)
    ensures forall s {:trigger RowOk(dict, path, alphabet, dfa[..], s, s * |alphabet|)} :: s in path ==>
              RowOk(dict, path, alphabet, dfa[..], s, s * |alphabet|)
  {
    NumberingPrefixClosed(dict, 0, path);
    hide EntryOk, RowOk, Bfs, Linked, RowsDone;
    dfa := new int[|trie.nodes| * |alphabet|];
    RowsNone(trie, path, dict, alphabet, dfa[..], order);
    var i := 0;
    while i < |order|
      invariant 0 <= i <= |order| && RowsDone(trie, path, dict, alphabet, dfa[..], order, i)
      invariant dfa.Length == |trie.nodes| * |alphabet|
    {
      ghost var before := dfa[..];
      FillRow(trie, order, i, alphabet, dfa, path, dict);
      RowAdded(trie, path, dict, alphabet, before, dfa[..], order, i);
      i := i + 1;
    }
    forall s | s in path ensures RowOk(dict, path, alphabet, dfa[..], s, s * |alphabet|) {
      RowOfState(trie, path, dict, alphabet, dfa[..], order, s);
    }
  }

  lemma RowsNone(trie: MapTrie, path: map<int, Word>, dict: set<Word>, alphabet: seq<Rune>, table: seq<int>, order: seq<int>)
    ensures RowsDone(trie, path, dict, alphabet, table, order, 0)
  {
  }

  lemma RowOfState(trie: MapTrie, path: map<int, Word>, dict: set<Word>, alphabet: seq<Rune>, table: seq<int>,
                   order: seq<int>, s: int)
    requires Bfs(path, order, |order|, {}) && PrefixClosed(path) && s in path
    requires RowsDone(trie, path, dict, alphabet, table, order, |order|)
    ensures RowOk(dict, path, alphabet, table, s, s * |alphabet|)
  {
    BfsComplete(path, order, s);
    var j :| 0 <= j < |order| && order[j] == s;
  }

  lemma RowAdded(trie: MapTrie, path: map<int, Word>, dict: set<Word>, alphabet: seq<Rune>,
                 before: seq<int>, after: seq<int>, order: seq<int>, i: nat)
    requires Shaped(trie, path) && i < |order| && Bfs(path, order, |order|, {}) && |before| == |after|
    requires RowsDone(trie, path, dict, alphabet, before, order, i)
    requires RowOk(dict, path, alphabet, after, order[i], order[i] * |alphabet|)
    requires forall j :: 0 <= j < |before| && (j < order[i] * |alphabet| || j >= order[i] * |alphabet| + |alphabet|) ==>
               after[j] == before[j]
    ensures RowsDone(trie, path, dict, alphabet, after, order, i + 1)
  {
    forall j | 0 <= j < i ensures RowOk(dict, path, alphabet, after, order[j], order[j] * |alphabet|) {
      assert order[j] != order[i] && RowOk(dict, path, alphabet, before, order[j], order[j] * |alphabet|);
      RowsApart(order[j], order[i], |alphabet|);
      RowKept(dict, path, alphabet, before, after, order[j], order[j] * |alphabet|, order[i] * |alphabet|);
    }
  }

  /** When row `order[i]` is filled, it lies inside the table and, for a non-root
      state, the failure row lies elsewhere and is complete. */
  lemma RowReady(trie: MapTrie, path: map<int, Word>, dict: set<Word>, alphabet: seq<Rune>, table: seq<int>,
                 order: seq<int>, i: nat)
    requires Linked(trie, path, dict) && PrefixClosed(path) && Injective(path)
    requires i < |order| && Bfs(path, order, |order|, {}) && RowsDone(trie, path, dict, alphabet, table, order, i)
    ensures var s := order[i];
            && s in path && 0 <= s < |trie.nodes| && 0 <= s * |alphabet| && s * |alphabet| + |alphabet| <= |trie.nodes| * |alphabet|
            && (s != 0 ==>
                var f := trie.nodes[s].fail;
                && path[s] != [] && 0 <= f && RowOk(dict, path, alphabet, table, f, f * |alphabet|)
                && (f * |alphabet| + |alphabet| <= s * |alphabet| || s * |alphabet| + |alphabet| <= f * |alphabet|))
  {
    var s := order[i];
    RowStart(s, |trie.nodes|, |alphabet|);
    if s != 0 {
      assert LinkedNode(trie, path, dict, s);
      var f := trie.nodes[s].fail;
      BfsComplete(path, order, f);
      var j :| 0 <= j < |order| && order[j] == f;
      BfsOrder(path, order, |order|, {}, i, j);
      RowsApart(f, s, |alphabet|);
    }
  }

  /** One entry: the child if there is one, the root below the root, and otherwise
      the failure row's entry with its flag. */
  method NextEntry(trie: MapTrie, s: int, r: Rune, failEntry: int, ghost path: map<int, Word>, ghost dict: set<Word>)
    returns (entry: int)
    requires Linked(trie, path, dict) && s in path && |trie.nodes| < HAS_OUTPUT_BIT
    requires s != 0 ==> path[s] != []
    requires s != 0 && trie.nodes[s].fail in path ==> EntryOk(dict, path, trie.nodes[s].fail, r, failEntry)
    ensures EntryOk(dict, path, s, r, entry)
  {
    var (child, ok) := trie.nodes[s].Next(r);
    if ok || s == 0 {
      var target := if ok then child else 0;
      DirectEntry(trie, path, dict, s, r);
      entry := PackState(target, trie.out.own[target] != 0 || trie.out.outLink[target] != OUT_NONE);
    } else {
      FailEntry(trie, path, dict, s, r, failEntry);
      entry := failEntry;
    }
  }

  method FillRow(trie: MapTrie, order: seq<int>, i: nat, alphabet: seq<Rune>, dfa: array<int>,
                 ghost path: map<int, Word>, ghost dict: set<Word>)
    requires Linked(trie, path, dict) && PrefixClosed(path) && Injective(path)
    requires i < |order| && Bfs(path, order, |order|, {}) && |trie.nodes| < HAS_OUTPUT_BIT
    requires dfa.Length == |trie.nodes| * |alphabet| && RowsDone(trie, path, dict, alphabet, dfa[..], order, i)
    modifies dfa
    ensures RowOk(dict, path, alphabet, dfa[..], order[i], order[i] * |alphabet|)
    ensures forall j :: 0 <= j < dfa.Length && (j < order[i] * |alphabet| || j >= order[i] * |alphabet| + |alphabet|) ==>
              dfa[j] == old(dfa[j])
  {
    hide EntryOk, RowsDone, Bfs, Linked, PrefixClosed, Injective, Shaped;
    RowReady(trie, path, dict, alphabet, dfa[..], order, i);
    var s := order[i];
    var width := |alphabet|;
    var row, failRow := s * width, trie.nodes[s].fail * width;
    var ai := 0;
    while ai < width
      invariant 0 <= ai <= width
      invariant forall j :: 0 <= j < dfa.Length && (j < row || j >= row + ai) ==> dfa[j] == old(dfa[j])
      invariant forall a {:trigger alphabet[a]} :: 0 <= a < ai ==> EntryOk(dict, path, s, alphabet[a], dfa[row + a])
    {
      var failEntry := if s == 0 then 0 else dfa[failRow + ai];
      assert s != 0 ==> failEntry == old(dfa[..])[failRow + ai];
      var entry := NextEntry(trie, s, alphabet[ai], failEntry, path, dict);
      dfa[row + ai] := entry;
      ai := ai + 1;
    }
  }

  lemma DirectEntry(trie: MapTrie, path: map<int, Word>, dict: set<Word>, s: int, r: Rune)
    requires Linked(trie, path, dict) && s in path && |trie.nodes| < HAS_OUTPUT_BIT
    requires r in trie.nodes[s].Edges() || s == 0
    ensures var t := if r in trie.nodes[s].Edges() then trie.nodes[s].Edges()[r] else 0;
            && t in path
            && EntryOk(dict, path, s, r, PackState(t, trie.out.own[t] != 0 || trie.out.outLink[t] != OUT_NONE))
  {
    assert PlainNode(trie, path, dict, s);
    assert EdgeOk(dict, path, s, trie.nodes[s].Edges(), r);
    var t := if r in trie.nodes[s].Edges() then trie.nodes[s].Edges()[r] else 0;
    if r in trie.nodes[s].Edges() { assert HasState(path, path[s] + [r]); }
    else { assert (path[s] + [r])[1..] == []; }
    LinkedTables(trie, path, dict);
    CarriesKeyword(dict, path, trie.out, t);
  }

  lemma FailEntry(trie: MapTrie, path: map<int, Word>, dict: set<Word>, s: int, r: Rune, entry: int)
    requires Linked(trie, path, dict) && s in path && path[s] != [] && r !in trie.nodes[s].Edges()
    requires trie.nodes[s].fail in path ==> EntryOk(dict, path, trie.nodes[s].fail, r, entry)
    ensures EntryOk(dict, path, s, r, entry)
  {
    assert LinkedNode(trie, path, dict, s) && PlainNode(trie, path, dict, s);
    assert EdgeOk(dict, path, s, trie.nodes[s].Edges(), r);
    FailStep(dict, path[s], r);
  }
}
