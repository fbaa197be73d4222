/** The double-array trie (internal/engine/engine_dat.go).  Position 0 is an unused
    sentinel and the root sits at position 1.  The base, check, fail and depth slices
    grow by doubling, so they are sequences here. */
module DoubleArray {
  import opened Matching
  import opened Automaton
  import opened OutputTables
  import opened TrieBuild
  import opened Coder

  const DAT_INITIAL_CAP := 1024
  const DAT_ROOT := 1

  // ----- a packed trie -----

  /** An occupied position is reached from its parent by the code of its last rune. */
  ghost predicate Hangs(path: map<int, Word>, base: seq<int>, check: seq<int>, runes: seq<Rune>, i: int)
    requires |base| == |check|
  {
    && 0 <= i < |check| && i in path && check[i] in path && 0 <= check[i] < |base|
    && 0 <= i - base[check[i]] < |runes|
    && path[i] == path[check[i]] + [runes[i - base[check[i]]]]
  }

  /** A packed double array: a position other than the root is occupied exactly when
      its check entry is set, and then it hangs off the state the entry names. */
  ghost predicate Packed(path: map<int, Word>, base: seq<int>, check: seq<int>, runes: seq<Rune>, size: int) {
    && DAT_ROOT + 1 <= size <= |check| == |base| && check[0] == -1
    && DAT_ROOT in path && path[DAT_ROOT] == [] && check[DAT_ROOT] == 0
    && (forall i {:trigger Hangs(path, base, check, runes, i)} :: i in path && i != DAT_ROOT ==>
          DAT_ROOT < i < size && Hangs(path, base, check, runes, i))
    && (forall i :: 0 < i < |check| && i !in path ==> check[i] == 0)
    && Injective(path)
  }

  /** Every trie child of `p` is placed. */
  ghost predicate Complete(dict: set<Word>, path: map<int, Word>, base: seq<int>, check: seq<int>, runes: seq<Rune>, p: int)
    requires p in path
  {
    forall code {:trigger runes[code]} :: 0 <= code < |runes| && IsPath(dict, path[p] + [runes[code]]) ==>
      0 <= p < |base| && 0 <= base[p] + code < |check| && check[base[p] + code] == p
  }

  /** The goto transition: a bounds test and one check comparison. */
  function Goto(base: seq<int>, check: seq<int>, size: int, state: int, code: int): int
    requires 0 <= state < |base| && size <= |check|
  {
    var pos := base[state] + code;
    if pos < 0 || pos >= size then 0
    else if check[pos] != state then 0
    else pos
  }

  /** Packing is faithful: for every state and code, the double array has exactly
      the trie's child there. */
  lemma GotoExact(dict: set<Word>, path: map<int, Word>, base: seq<int>, check: seq<int>, runes: seq<Rune>, size: int,
                  state: int, code: int)
    requires Packed(path, base, check, runes, size) && IsAlphabet(runes)
    requires state in path && Complete(dict, path, base, check, runes, state) && 0 <= code < |runes|
    requires forall p {:trigger HasState(path, p)} :: HasState(path, p) ==> IsPath(dict, p)
    ensures 0 <= state < |base|
    ensures var next := Goto(base, check, size, state, code);
            if IsPath(dict, path[state] + [runes[code]]) then next in path && path[next] == path[state] + [runes[code]]
            else next == 0
  {
    assert state != DAT_ROOT ==> Hangs(path, base, check, runes, state);
    var pos := base[state] + code;
    if 0 <= pos < |check| && check[pos] == state {
      assert pos in path && pos != DAT_ROOT;
      assert Hangs(path, base, check, runes, pos);
      assert HasState(path, path[state] + [runes[code]]);
    }
  }

  lemma PackedGrown(path: map<int, Word>, base: seq<int>, check: seq<int>, runes: seq<Rune>, size: int,
                    base': seq<int>, check': seq<int>)
    requires Packed(path, base, check, runes, size) && |base'| == |check'|
    requires Grown(base, base') && Grown(check, check')
    ensures Packed(path, base', check', runes, size)
  {
    forall i | i in path && i != DAT_ROOT ensures DAT_ROOT < i < size && Hangs(path, base', check', runes, i) {
      assert Hangs(path, base, check, runes, i);
    }
    forall i | 0 < i < |check'| && i !in path ensures check'[i] == 0 {
      if i < |check| { assert check[i] == 0; }
    }
  }

  lemma CompleteGrown(dict: set<Word>, path: map<int, Word>, base: seq<int>, check: seq<int>, runes: seq<Rune>, p: int,
                      base': seq<int>, check': seq<int>)
    requires p in path && Complete(dict, path, base, check, runes, p)
    requires Grown(base, base') && Grown(check, check')
    ensures Complete(dict, path, base', check', runes, p)
  {
  }

  /** Choosing the base of a state that has no children yet. */
  lemma PackedBase(path: map<int, Word>, base: seq<int>, check: seq<int>, runes: seq<Rune>, size: int, p: int, b: int)
    requires Packed(path, base, check, runes, size) && p in path && 0 <= p < |base|
    requires forall i :: i in path && i != DAT_ROOT && 0 <= i < |check| ==> check[i] != p
    ensures Packed(path, base[p := b], check, runes, size)
  {
    forall i | i in path && i != DAT_ROOT ensures DAT_ROOT < i < size && Hangs(path, base[p := b], check, runes, i) {
      assert Hangs(path, base, check, runes, i);
    }
  }

  /** Placing a child on a free position. */
  lemma PackedPlace(path: map<int, Word>, base: seq<int>, check: seq<int>, runes: seq<Rune>, size: int, size': int,
                    p: int, code: int, pos: int)
    requires Packed(path, base, check, runes, size) && p in path && 0 <= p < |base|
    requires 0 <= code < |runes| && pos == base[p] + code && DAT_ROOT < pos < size' <= |check|
    requires size <= size' && check[pos] == 0 && p != 0
    requires !HasState(path, path[p] + [runes[code]])
    ensures pos !in path
    ensures Packed(path[pos := path[p] + [runes[code]]], base, check[pos := p], runes, size')
  {
    assert pos !in path by {
      if pos in path { assert Hangs(path, base, check, runes, pos) && check[pos] in path; ZeroNotState(path, base, check, runes, size); }
    }
    var path', check' := path[pos := path[p] + [runes[code]]], check[pos := p];
    forall i | i in path' && i != DAT_ROOT ensures DAT_ROOT < i < size' && Hangs(path', base, check', runes, i) {
      if i != pos { assert Hangs(path, base, check, runes, i); }
    }
    InjectivePlace(path, pos, path[p] + [runes[code]]);
  }

  lemma InjectivePlace(path: map<int, Word>, pos: int, w: Word)
    requires Injective(path) && !HasState(path, w) && pos !in path
    ensures Injective(path[pos := w])
  {
    forall s | s in path ensures path[s] != w { assert HasState(path, path[s]); }
  }

  lemma ZeroNotState(path: map<int, Word>, base: seq<int>, check: seq<int>, runes: seq<Rune>, size: int)
    requires Packed(path, base, check, runes, size)
    ensures 0 !in path && OUT_NONE !in path
    ensures forall i :: i in path ==> DAT_ROOT <= i < size
  {
    forall i | i in path ensures DAT_ROOT <= i < size {
      assert i != DAT_ROOT ==> Hangs(path, base, check, runes, i);
    }
  }

  lemma CompletePlace(dict: set<Word>, path: map<int, Word>, base: seq<int>, check: seq<int>, runes: seq<Rune>, q: int,
                      pos: int, p: int, w: Word)
    requires q in path && Complete(dict, path, base, check, runes, q)
    requires pos !in path && 0 <= pos < |check| && check[pos] == 0 && q != 0
    ensures Complete(dict, path[pos := w], base, check[pos := p], runes, q)
  {
  }

  // ----- what positions carry -----

  ghost predicate OwnSlot(dict: set<Word>, path: map<int, Word>, o: Outputs, p: int)
    requires p in path
  {
    if path[p] != [] && path[p] in dict then
      && 0 <= p < |o.own| && 0 < o.own[p] < |o.keywords| && |o.keywords| == |o.runeLens|
      && o.keywords[o.own[p]] == path[p] && o.runeLens[o.own[p]] == |path[p]|
    else 0 <= p < |o.own| ==> o.own[p] == 0
  }

  /** The own slots of placed positions; all other slots are zero. */
  ghost predicate OwnSlots(dict: set<Word>, path: map<int, Word>, o: Outputs) {
    && |o.keywords| == |o.runeLens|
    && (forall p {:trigger OwnSlot(dict, path, o, p)} :: p in path ==> OwnSlot(dict, path, o, p))
    && (forall i :: 0 <= i < |o.own| && i !in path ==> o.own[i] == 0)
  }

  ghost predicate DepthsOk(path: map<int, Word>, depth: seq<int>) {
    forall p :: p in path ==> 0 <= p < |depth| && depth[p] == |path[p]|
  }

  // ----- growing and probing -----

  function Zeros(n: nat): (z: seq<int>)
    ensures |z| == n && forall i :: 0 <= i < n ==> z[i] == 0
  {
    seq(n, _ => 0)
  }

  /** `after` is `before` followed by zeros. */
  ghost predicate Grown(before: seq<int>, after: seq<int>) {
    before <= after && forall i :: |before| <= i < |after| ==> after[i] == 0
  }

  class DoubleArrayTrie {
    var base: seq<int>
    var check: seq<int>
    var fail: seq<int>
    var depth: seq<int>
    var cap: int
    var size: int
    var out: Outputs
    var hasOutput: seq<bool>
    var runes: seq<Rune>
    var coder: AlphabetCoder
    ghost var dict: set<Word>
    ghost var path: map<int, Word>

    /** The arrays hold exactly the trie of `dict`. */
    ghost predicate Faithful()
      reads `dict, `path, `base, `check, `runes, `size
    {
      && Packed(path, base, check, runes, size) && IsAlphabet(runes)
      && Numbering(dict, DAT_ROOT, path)
      && (forall p {:trigger Complete(dict, path, base, check, runes, p)} :: p in path ==>
            Complete(dict, path, base, check, runes, p))
      && (forall k, r :: k in dict && r in k ==> r in runes)
    }

    ghost predicate Valid()
      reads this, coder, coder.asciiCode
    {
      && Faithful() && coder.Valid(runes)
      && SetLinked(dict, path, fail, out, path.Keys) && TablesOk(dict, path, out)
      && |hasOutput| == size
      && (forall s :: s in path ==> 0 <= s < size && (hasOutput[s] <==> KeywordSuffixes(dict, path[s]) != []))
    }

    /** Builds the double array from any list of keywords; empty ones are skipped. */
    constructor (keywords: seq<Word>)
      requires forall k, i :: k in keywords && 0 <= i < |k| ==> 0 <= k[i]
      ensures Valid() && dict == Dictionary(keywords) && fresh(coder) && fresh(coder.asciiCode)
      ensures DepthsOk(path, depth) && size <= |depth|
    {
      base, check := Zeros(DAT_INITIAL_CAP), Zeros(DAT_INITIAL_CAP);
      fail, depth := Zeros(DAT_INITIAL_CAP), Zeros(DAT_INITIAL_CAP);
      cap, size := DAT_INITIAL_CAP, DAT_ROOT + 1;
      out, hasOutput := Outputs([], [], [], []), [];
      var rs := CollectRunes(keywords);
      runes := rs;
      coder := new AlphabetCoder(rs);
      dict, path := Dictionary(keywords), map[DAT_ROOT := []];
      new;
      hide Valid, DepthsOk, IsAlphabet, AlphabetCoder.Valid, Zeros;
      Build(keywords);
    }

    method Build(keywords: seq<Word>)
      requires cap == DAT_INITIAL_CAP && size == DAT_ROOT + 1 && base == check == depth == fail == Zeros(cap)
      requires out == Outputs([], [], [], []) && path == map[DAT_ROOT := []] && dict == Dictionary(keywords)
      requires IsAlphabet(runes) && coder.Valid(runes) && forall r :: r in runes <==> exists k :: k in keywords && r in k
      modifies `base, `check, `fail, `depth, `cap, `size, `out, `path, `hasOutput
      ensures Valid() && dict == Dictionary(keywords) && DepthsOk(path, depth) && size <= |depth|
    {
      RunesCover(keywords, runes);
      hide Faithful, SetLinked, TablesOk, DepthsOk, OwnSlots, IsAlphabet, AlphabetCoder.Valid;
      Place(keywords);
      Finish();
    }

    /** Places every node of the keyword trie, breadth-first. */
    method Place(keywords: seq<Word>)
      requires Sized() && IsAlphabet(runes) && coder.Valid(runes) && dict == Dictionary(keywords)
      requires forall r :: r in runes <==> exists k :: k in keywords && r in k
      requires forall k, r :: k in dict && r in k ==> r in runes
      requires path == map[DAT_ROOT := []] && out == Outputs([], [], [], []) && size == DAT_ROOT + 1
      requires base == check == depth == Zeros(cap)
      modifies `base, `check, `fail, `depth, `cap, `size, `out, `path
      ensures Sized() && Faithful() && OwnSlots(dict, path, out) && DepthsOk(path, depth) && |out.own| <= size
    {
      var t, tmp := InsertAll(keywords);
      Ready(t, tmp, dict);
      AlphabetSmaller(keywords, runes, dict, tmp, |t.nodes|);
      EnsureCapacity(|t.nodes| + 2);
      check := check[0 := -1];
      var datPos := Zeros(|t.nodes|)[0 := DAT_ROOT];
      RootPlaced(tmp, datPos, base, check, runes, dict);
      PlaceNodes(t, datPos, coder.index, tmp);
    }

    method PlaceNodes(t: MapTrie, datPos0: seq<int>, index: map<Rune, int>, ghost tmp: map<int, Word>)
      requires Plain(t, tmp, dict) && IndexOk(index, runes) && |datPos0| == |t.nodes|
      requires forall k, r :: k in dict && r in k ==> r in runes
      requires Placing(tmp, datPos0, [0], 0)
      modifies `base, `check, `fail, `depth, `cap, `size, `out, `path
      ensures Sized() && Faithful() && OwnSlots(dict, path, out) && DepthsOk(path, depth) && |out.own| <= size
    {
      hide Bfs, Plain, Injective, PrefixClosed, Placing, IndexOk;
      QueueStart(t, tmp, dict);
      var datPos, queue, head := datPos0, [0], 0;
      while head < |queue|
        invariant head <= |queue| && |datPos| == |t.nodes| && Bfs(tmp, queue, head, {}) && Placing(tmp, datPos, queue, head)
        decreases |tmp.Keys| - head
      {
        BfsBound(tmp, queue, head, {});
        datPos, queue := PlaceChildren(t, datPos, queue, head, index, tmp);
        head := head + 1;
      }
      PlacingDone(t, tmp, datPos, queue);
    }

    lemma PlacingDone(t: MapTrie, tmp: map<int, Word>, datPos: seq<int>, q: seq<int>)
      requires Plain(t, tmp, dict) && PrefixClosed(tmp) && Bfs(tmp, q, |q|, {}) && Placing(tmp, datPos, q, |q|)
      requires forall k, r :: k in dict && r in k ==> r in runes
      ensures Sized() && Faithful() && OwnSlots(dict, path, out) && DepthsOk(path, depth) && |out.own| <= size
    {
      AllPlaced(t, tmp, dict, datPos, q, path, base, check, runes, size);
    }

    /** Sets the failure and output links and the output flags. */
    method Finish()
      requires Sized() && Faithful() && OwnSlots(dict, path, out) && DepthsOk(path, depth) && coder.Valid(runes)
      requires |out.own| <= size
      modifies `fail, `out, `hasOutput
      ensures Valid() && DepthsOk(path, depth) && size <= |depth|
    {
      InRange();
      hide Faithful, OwnSlots, OwnsOk, SetLinked, DepthsOk, TablesOk, AlphabetCoder.Valid;
      Pad();
      ghost var out1 := out;
      ComputeFailLinks();
      OwnsSame(dict, path, out1, out);
      LinksGiveTables(dict, path, fail, out);
      Flag();
    }

    /** Extends the output tables to every position, with no links yet. */
    method Pad()
      requires Faithful() && OwnSlots(dict, path, out) && |out.own| <= size
      modifies `out
      ensures OwnsOk(dict, path, out) && |out.own| == |out.outLink| == size
      ensures forall s :: 0 <= s < size ==> out.outLink[s] == OUT_NONE
    {
      InRange();
      hide Faithful, OwnSlots, OwnsOk;
      ghost var out0 := out;
      if |out.own| < size { out := out.(own := out.own + Zeros(size - |out.own|)); }
      out := out.(outLink := seq(size, _ => OUT_NONE));
      OwnsPadded(dict, path, out0, out, size);
    }

    /** Notes for every position whether its output chain holds a keyword. */
    method Flag()
      requires TablesOk(dict, path, out) && |out.own| == |out.outLink| == size >= 0
      requires forall s :: s in path ==> 0 <= s < size
      modifies `hasOutput
      ensures |hasOutput| == size
      ensures forall s :: s in path ==> 0 <= s < size && (hasOutput[s] <==> KeywordSuffixes(dict, path[s]) != [])
    {
      hasOutput := [];
      var s := 0;
      while s < size
        invariant 0 <= s <= size && |hasOutput| == s
        invariant forall t :: 0 <= t < s ==> hasOutput[t] == (out.own[t] != 0 || out.outLink[t] != OUT_NONE)
      {
        hasOutput := hasOutput + [out.own[s] != 0 || out.outLink[s] != OUT_NONE];
        s := s + 1;
      }
      forall t | t in path ensures hasOutput[t] <==> KeywordSuffixes(dict, path[t]) != [] {
        CarriesKeyword(dict, path, out, t);
      }
    }

    /** Breadth-first over the double array; each failure target is already final. */
    method ComputeFailLinks()
      requires Sized() && Faithful() && |out.outLink| == size
      requires forall s :: 0 <= s < size ==> out.outLink[s] == OUT_NONE
      requires OwnsOk(dict, path, out)
      modifies `fail, `out
      ensures |fail| == |base| && out.own == old(out.own) && |out.outLink| == size
      ensures out.keywords == old(out.keywords) && out.runeLens == old(out.runeLens)
      ensures SetLinked(dict, path, fail, out, path.Keys)
    {
      hide Faithful, PrefixClosed, Injective, Bfs, OwnsOk, SetLinked;
      PathsClosed();
      var queue := LinkRootChildren();
      var head := 1;
      while head < |queue|
        invariant 1 <= head <= |queue| && queue[0] == DAT_ROOT && Bfs(path, queue, head, {})
        invariant |fail| == |base| && out.own == old(out.own) && |out.outLink| == size
        invariant out.keywords == old(out.keywords) && out.runeLens == old(out.runeLens)
        invariant SetLinked(dict, path, fail, out, Elements(queue))
        decreases |path.Keys| - head
      {
        BfsBound(path, queue, head, {});
        OwnsSame(dict, path, old(out), out);
        queue := LinkChildren(queue, head);
        head := head + 1;
      }
      EveryStateLinked(dict, path, fail, out, queue);
    }

    method LinkRootChildren() returns (queue: seq<int>)
      requires Sized() && Faithful() && PrefixClosed(path) && Injective(path) && |out.outLink| == size
      requires forall s :: 0 <= s < size ==> out.outLink[s] == OUT_NONE
      modifies `fail
      ensures |queue| > 0 && queue[0] == DAT_ROOT && Bfs(path, queue, 1, {}) && |fail| == |base|
      ensures SetLinked(dict, path, fail, out, Elements(queue))
    {
      RootIs();
      InRange();
      hide Faithful, Bfs, PrefixClosed, Injective, SetLinked;
      queue := [DAT_ROOT];
      ghost var done: set<Rune> := {};
      BfsStart(path, DAT_ROOT);
      var i := DAT_ROOT + 1;
      while i < size
        invariant DAT_ROOT < i <= size && |fail| == |base|
        invariant |queue| > 0 && queue[0] == DAT_ROOT && Bfs(path, queue, 0, done)
        invariant forall s :: s in path ==> (s in queue <==> s == DAT_ROOT || (s < i && 0 <= s < |check| && check[s] == DAT_ROOT))
        invariant forall s :: s in queue && s != DAT_ROOT ==> 0 <= s < size && fail[s] == DAT_ROOT
      {
        if check[i] == DAT_ROOT {
          ghost var ch := RootChild(i, queue, done);
          BfsVisit(path, queue, 0, done, ch, i);
          fail := fail[i := DAT_ROOT];
          queue := queue + [i];
          done := done + {ch};
        }
        i := i + 1;
      }
      fail := fail[DAT_ROOT := DAT_ROOT];
      RootChildrenDone(queue, done);
      RootLinks(dict, path, fail, out, queue, done);
    }

    /** An occupied position whose check names the root is a new child of the root. */
    lemma RootChild(i: int, queue: seq<int>, done: set<Rune>) returns (ch: Rune)
      requires Faithful() && DAT_ROOT < i < size && check[i] == DAT_ROOT
      requires |queue| > 0 && queue[0] == DAT_ROOT && Bfs(path, queue, 0, done) && i !in queue
      ensures i in path && path[i] == path[queue[0]] + [ch] && ch !in done
    {
      assert i in path && Hangs(path, base, check, runes, i);
      ch := runes[i - base[DAT_ROOT]];
      assert !Reached(path, queue, 0, done, path[i]);
      assert Parent(path[i]) == [] && Last(path[i]) == ch;
    }

    lemma RootChildrenDone(queue: seq<int>, done: set<Rune>)
      requires Faithful() && |queue| > 0 && queue[0] == DAT_ROOT && Bfs(path, queue, 0, done)
      requires forall s :: s in path && 0 <= s < |check| && check[s] == DAT_ROOT ==> s in queue
      ensures Bfs(path, queue, 1, {})
    {
      forall ch | HasState(path, path[queue[0]] + [ch]) ensures ch in done {
        var s :| s in path && path[s] == path[queue[0]] + [ch];
        assert Hangs(path, base, check, runes, s);
        SnocInjective(path[check[s]], runes[s - base[check[s]]], [], ch);
        assert s in queue && Reached(path, queue, 0, done, path[s]);
        assert Parent(path[s]) == [] && Last(path[s]) == ch;
      }
      BfsNext(path, queue, 0, done);
    }

    method LinkChildren(queue: seq<int>, head: nat) returns (queue': seq<int>)
      requires Sized() && Faithful() && PrefixClosed(path) && Injective(path) && |out.outLink| == size && |fail| == |base|
      requires OwnsOk(dict, path, out)
      requires 0 < head < |queue| && queue[0] == DAT_ROOT && Bfs(path, queue, head, {})
      requires SetLinked(dict, path, fail, out, Elements(queue))
      modifies `fail, `out
      ensures queue <= queue' && Bfs(path, queue', head + 1, {})
      ensures |fail| == |base| && out.own == old(out.own) && |out.outLink| == size
      ensures out.keywords == old(out.keywords) && out.runeLens == old(out.runeLens)
      ensures SetLinked(dict, path, fail, out, Elements(queue'))
    {
      var state := queue[head];
      queue' := queue;
      HeadOfQueue(queue, head);
      QueueLinksDepth(dict, path, fail, out, queue, head);
      var code := 0;
      ghost var done: set<Rune> := {};
      hide Bfs, Faithful, PrefixClosed, Injective, OwnsOk, SetLinked, DepthLinked, Elements;
      while code < |runes|
        invariant 0 <= code <= |runes| && done == (set r | r in runes[..code])
        invariant queue <= queue' && Bfs(path, queue', head, done)
        invariant |fail| == |base| && out.own == old(out.own) && |out.outLink| == size
        invariant out.keywords == old(out.keywords) && out.runeLens == old(out.runeLens)
        invariant SetLinked(dict, path, fail, out, Elements(queue')) && DepthLinked(dict, path, fail, out, |path[state]|)
      {
        assert runes[..code + 1] == runes[..code] + [runes[code]];
        OwnsSame(dict, path, old(out), out);
        queue' := LinkCode(queue', head, code, done);
        done := done + {runes[code]};
        code := code + 1;
      }
      assert runes[..code] == runes;
      AllRunesDone(queue', head, done);
    }

    lemma HeadOfQueue(queue: seq<int>, head: nat)
      requires Faithful() && 0 < head < |queue| && queue[0] == DAT_ROOT && Bfs(path, queue, head, {})
      ensures queue[head] in path && path[queue[head]] != []
    {
      assert queue[0] != queue[head];
    }

    lemma AllRunesDone(queue: seq<int>, head: nat, done: set<Rune>)
      requires Faithful() && head < |queue| && Bfs(path, queue, head, done) && done == (set r | r in runes)
      ensures Bfs(path, queue, head + 1, {})
    {
      var p := path[queue[head]];
      forall ch | HasState(path, p + [ch]) ensures ch in done {
        var k :| k in dict && p + [ch] <= k;
        PrefixMember(p, ch, k);
      }
      BfsNext(path, queue, head, done);
    }

    /** Links and enqueues the child of the head state along one code, if any. */
    method LinkCode(queue: seq<int>, head: nat, code: nat, ghost done: set<Rune>) returns (queue': seq<int>)
      requires Faithful() && PrefixClosed(path) && Injective(path) && |out.outLink| == size && |fail| == |base| && size <= |base|
      requires OwnsOk(dict, path, out) && code < |runes| && runes[code] !in done
      requires head < |queue| && Bfs(path, queue, head, done) && queue[head] in path && path[queue[head]] != []
      requires SetLinked(dict, path, fail, out, Elements(queue)) && DepthLinked(dict, path, fail, out, |path[queue[head]]|)
      modifies `fail, `out
      ensures queue <= queue' && Bfs(path, queue', head, done + {runes[code]})
      ensures |fail| == |base| && out.own == old(out.own) && |out.outLink| == size
      ensures out.keywords == old(out.keywords) && out.runeLens == old(out.runeLens)
      ensures SetLinked(dict, path, fail, out, Elements(queue')) && DepthLinked(dict, path, fail, out, |path[queue[head]]|)
    {
      hide Bfs, Faithful, PrefixClosed, Injective, SetLinked, DepthLinked, Elements, OwnsOk;
      var state := queue[head];
      queue' := queue;
      GotoFaithful(state, code);
      InRange();
      var next := Goto(base, check, size, state, code);
      if next == 0 {
        NoState(path[state] + [runes[code]]);
        BfsSkip(path, queue, head, done, runes[code]);
      } else {
        BfsVisit(path, queue, head, done, runes[code], next);
        queue' := queue + [next];
        LinkNext(state, code, next, Elements(queue));
        ElementsSnoc(queue, next);
      }
    }

    /** Sets the links of the child `next` of `state`. */
    method LinkNext(state: int, code: nat, next: int, ghost states: set<int>)
      requires Faithful() && OwnsOk(dict, path, out) && |out.outLink| == size && |fail| == |base| && size <= |base|
      requires state in path && path[state] != [] && code < |runes|
      requires next in path && path[next] == path[state] + [runes[code]]
      requires SetLinked(dict, path, fail, out, states) && DepthLinked(dict, path, fail, out, |path[state]|)
      modifies `fail, `out
      ensures |fail| == |base| && out.own == old(out.own) && |out.outLink| == size
      ensures out.keywords == old(out.keywords) && out.runeLens == old(out.runeLens)
      ensures SetLinked(dict, path, fail, out, states + {next}) && DepthLinked(dict, path, fail, out, |path[state]|)
    {
      hide Faithful, SetLinked, DepthLinked, FailOk, LinkOk, Landing, IsPath, KeywordSuffixes;
      InRange();
      HeadLinked(state);
      var f := FollowFail(fail[state], code, |path[state]|);
      assert OwnOk(dict, path, out, f);
      ChildLink(dict, path, fail, out, state, runes[code], next, f);
      var link := if out.own[f] != 0 then f else out.outLink[f];
      LinkSet(dict, path, fail, out, states, |path[state]|, next, f, link);
      fail := fail[next := f];
      out := out.(outLink := out.outLink[next := link]);
    }

    lemma PathsClosed()
      requires Faithful()
      ensures PrefixClosed(path) && Injective(path)
    {
      NumberingPrefixClosed(dict, DAT_ROOT, path);
    }

    lemma HeadLinked(state: int)
      requires state in path && path[state] != [] && DepthLinked(dict, path, fail, out, |path[state]|)
      ensures 0 <= state < |fail| && fail[state] in path && |path[fail[state]]| <= |path[state]|
    {
      assert LinkAt(dict, path, fail, out, state);
    }

    lemma InRange()
      requires Faithful()
      ensures forall s :: s in path ==> DAT_ROOT <= s < size
    {
      ZeroNotState(path, base, check, runes, size);
    }

    lemma NoState(w: Word)
      requires Faithful() && !IsPath(dict, w)
      ensures !HasState(path, w)
    {
    }


    ghost predicate Sized()
      reads this
    {
      && cap >= DAT_INITIAL_CAP && DAT_ROOT + 1 <= size <= cap
      && |base| == |check| == |fail| == |depth| == cap
      && (forall i :: size <= i < cap ==> check[i] == 0)
    }

    twostate predicate GrewOnly()
      reads this
    {
      && old(cap) <= cap
      && Grown(old(base), base) && Grown(old(check), check) && Grown(old(fail), fail) && Grown(old(depth), depth)
    }

    /** Doubles the arrays. */
    method Expand()
      requires Sized()
      modifies `base, `check, `fail, `depth, `cap
      ensures Sized() && cap == 2 * old(cap) && GrewOnly()
    {
      base, check := base + Zeros(cap), check + Zeros(cap);
      fail, depth := fail + Zeros(cap), depth + Zeros(cap);
      cap := cap * 2;
    }

    method EnsureCapacity(needed: int)
      requires Sized()
      modifies `base, `check, `fail, `depth, `cap
      ensures Sized() && needed < cap && GrewOnly()
      ensures forall i :: 0 <= i < old(cap) ==> base[i] == old(base[i]) && check[i] == old(check[i]) && depth[i] == old(depth[i])
    {
      while needed >= cap
        invariant Sized() && GrewOnly()
        decreases needed - cap
      {
        Expand();
      }
    }

    /** Finds a base under which every code falls on a free position.  The search
        ends because a base past the used part cannot conflict, and one doubling per
        probe suffices because the capacity exceeds the alphabet. */
    method FindBase(codes: seq<int>) returns (b: int)
      requires Sized() && |runes| < cap
      requires forall i :: 0 <= i < |codes| ==> 0 <= codes[i] < |runes|
      modifies `base, `check, `fail, `depth, `cap
      ensures Sized() && GrewOnly()
      ensures forall i {:trigger codes[i]} :: 0 <= i < |codes| ==> DAT_ROOT < b + codes[i] < cap && check[b + codes[i]] == 0
    {
      if |codes| == 0 { return 1; }
      var minCode := codes[0];
      var k := 1;
      while k < |codes|
        invariant 1 <= k <= |codes| && minCode in codes
        invariant forall i :: 0 <= i < k ==> minCode <= codes[i]
      {
        if codes[k] < minCode { minCode := codes[k]; }
        k := k + 1;
      }
      assert forall i :: 0 <= i < |codes| ==> minCode <= codes[i];
      b := DAT_ROOT + 1 - minCode;
      while true
        invariant Sized() && GrewOnly() && |runes| < cap
        invariant DAT_ROOT + 1 - minCode <= b <= size
        decreases size - b
      {
        var conflict := Probe(codes, b, minCode);
        if !conflict { return; }
        b := b + 1;
      }
    }

    /** Tests one base; a conflict means some code falls on a used position. */
    method Probe(codes: seq<int>, b: int, ghost minCode: int) returns (conflict: bool)
      requires Sized() && |runes| < cap && DAT_ROOT + 1 - minCode <= b <= size
      requires forall i :: 0 <= i < |codes| ==> 0 <= minCode <= codes[i] < |runes|
      modifies `base, `check, `fail, `depth, `cap
      ensures Sized() && GrewOnly()
      ensures conflict ==> b < size
      ensures !conflict ==>
                forall i {:trigger codes[i]} :: 0 <= i < |codes| ==> DAT_ROOT < b + codes[i] < cap && check[b + codes[i]] == 0
    {
      var i := 0;
      while i < |codes|
        invariant 0 <= i <= |codes| && Sized() && GrewOnly()
        invariant forall j {:trigger codes[j]} :: 0 <= j < i ==> DAT_ROOT < b + codes[j] < cap && check[b + codes[j]] == 0
      {
        var pos := b + codes[i];
        if pos >= cap { Expand(); }
        if check[pos] != 0 { return true; }
        i := i + 1;
      }
      return false;
    }

    // ----- placing the trie -----

    /** Writes one child onto its free position. */
    method PlaceChild(kw: Word, isKeyword: bool, p: int, pos: int, ghost code: int, ghost w: Word)
      requires Sized() && Packed(path, base, check, runes, size) && OwnSlots(dict, path, out) && DepthsOk(path, depth)
      requires |out.own| <= size
      requires p in path && 0 < p < cap && 0 <= code < |runes| && pos == base[p] + code
      requires DAT_ROOT < pos < cap && check[pos] == 0
      requires w == path[p] + [runes[code]] && !HasState(path, w) && (isKeyword <==> w in dict)
      requires isKeyword ==> kw == w
      modifies `base, `check, `fail, `depth, `cap, `size, `out, `path
      ensures Sized() && Packed(path, base, check, runes, size) && OwnSlots(dict, path, out) && DepthsOk(path, depth)
      ensures |out.own| <= size
      ensures old(pos !in path) && path == old(path)[pos := w]
      ensures Grown(old(base), base) && Grown(old(check)[pos := p], check)
    {
      hide Packed, OwnSlots, HasState;
      ghost var base0, check0 := base, check;
      PackedPlace(path, base, check, runes, size, if pos >= size then pos + 1 else size, p, code, pos);
      EnsureCapacity(pos + 1);
      check := check[pos := p];
      depth := depth[pos := depth[p] + 1];
      PackedGrown(path[pos := w], base0, check0[pos := p], runes, if pos >= size then pos + 1 else size, base, check);
      if pos >= size { size := pos + 1; }
      Own(kw, isKeyword, pos, w);
    }

    /** Records a placed position and the keyword that ends there, if any. */
    method Own(kw: Word, isKeyword: bool, pos: int, ghost w: Word)
      requires OwnSlots(dict, path, out) && pos !in path && pos >= 0 && w != []
      requires (isKeyword <==> w in dict) && (isKeyword ==> kw == w)
      modifies `out, `path
      ensures OwnSlots(dict, path, out) && path == old(path)[pos := w]
      ensures |out.own| == old(|out.own|) || |out.own| == pos + 1
    {
      ghost var path0, out0 := path, out;
      if isKeyword {
        var own := if pos >= |out.own| then out.own + Zeros(pos + 1 - |out.own|) else out.own;
        var (o, id) := out.AssignID(kw);
        out := o.(own := own[pos := id]);
      }
      path := path[pos := w];
      forall q | q in path ensures OwnSlot(dict, path, out, q) {
        if q != pos { assert OwnSlot(dict, path0, out0, q); }
      }
    }

    /** How far placement has come: `q` lists the temporary trie's nodes that have a
        position, breadth-first, and the first `head` have all their children placed. */
    ghost predicate Placing(tmp: map<int, Word>, datPos: seq<int>, q: seq<int>, head: nat)
      reads this
    {
      && Sized() && |runes| < cap && IsAlphabet(runes)
      && Packed(path, base, check, runes, size) && OwnSlots(dict, path, out) && DepthsOk(path, depth)
      && Positions(tmp, datPos, q, path)
      && head <= |q| && Completes(dict, path, base, check, runes, datPos, q, head)
      && |out.own| <= size
    }

    /** Moves from one array state to a grown one. */
    lemma PlacingGrown(tmp: map<int, Word>, datPos: seq<int>, q: seq<int>, head: nat, base0: seq<int>, check0: seq<int>)
      requires Sized() && IsAlphabet(runes) && head <= |q|
      requires Packed(path, base0, check0, runes, size) && Grown(base0, base) && Grown(check0, check)
      requires Positions(tmp, datPos, q, path) && Completes(dict, path, base0, check0, runes, datPos, q, head)
      ensures Packed(path, base, check, runes, size) && Completes(dict, path, base, check, runes, datPos, q, head)
    {
      PackedGrown(path, base0, check0, runes, size, base, check);
      forall i | 0 <= i < head ensures Complete(dict, path, base, check, runes, datPos[q[i]]) {
        CompleteGrown(dict, path, base0, check0, runes, datPos[q[i]], base, check);
      }
    }

    /** Places every child of the node at the head of the queue. */
    method PlaceChildren(t: MapTrie, datPos: seq<int>, q: seq<int>, head: nat, index: map<Rune, int>, ghost tmp: map<int, Word>)
      returns (datPos': seq<int>, q': seq<int>)
      requires Plain(t, tmp, dict) && Injective(tmp) && IndexOk(index, runes) && |datPos| == |t.nodes|
      requires forall k, r :: k in dict && r in k ==> r in runes
      requires head < |q| && Bfs(tmp, q, head, {}) && Placing(tmp, datPos, q, head)
      modifies `base, `check, `fail, `depth, `cap, `size, `out, `path
      ensures |datPos'| == |datPos| && Bfs(tmp, q', head + 1, {}) && Placing(tmp, datPos', q', head + 1)
      ensures q <= q'
    {
      hide Bfs, Packed, Plain, OwnSlots, DepthsOk, Completes, Injective, HasState, Complete;
      datPos', q' := datPos, q;
      HeadFacts(t, tmp, dict, runes, index, datPos, q, head, path, base, check, size);
      ZeroNotState(path, base, check, runes, size);
      var edges := t.nodes[q[head]].Edges();
      if |edges.Keys| > 0 { datPos', q' := PlaceEdges(t, datPos, q, head, index, tmp); }
      HeadComplete(t, tmp, dict, runes, index, datPos', q', head, path, base, check);
    }

    method PlaceEdges(t: MapTrie, datPos: seq<int>, q: seq<int>, head: nat, index: map<Rune, int>, ghost tmp: map<int, Word>)
      returns (datPos': seq<int>, q': seq<int>)
      requires Plain(t, tmp, dict) && Injective(tmp) && IndexOk(index, runes) && |datPos| == |t.nodes|
      requires head < |q| && Bfs(tmp, q, head, {}) && Placing(tmp, datPos, q, head)
      requires q[head] in tmp && 0 <= q[head] < |t.nodes|
      requires forall ch :: ch in t.nodes[q[head]].Edges() ==> ch in runes
      modifies `base, `check, `fail, `depth, `cap, `size, `out, `path
      ensures |datPos'| == |datPos| && q <= q' && Bfs(tmp, q', head, t.nodes[q[head]].Edges().Keys)
      ensures Placing(tmp, datPos', q', head)
      ensures var p := datPos'[q[head]];
              0 <= p < |base| && Slots(check, index, base[p], p, {}, t.nodes[q[head]].Edges().Keys)
    {
      hide Bfs, Plain, Placing, Injective, Slots, IndexOk;
      datPos', q' := datPos, q;
      var edges := t.nodes[q[head]].Edges();
      var p := datPos[q[head]];
      var b := ChooseBase(edges, index, datPos, q, head, tmp);
      ghost var done: set<Rune> := {};
      var todo := edges.Keys;
      while |todo| > 0
        invariant todo <= edges.Keys && done == edges.Keys - todo && todo !! done
        invariant |datPos'| == |datPos| && q <= q' && Bfs(tmp, q', head, done) && Placing(tmp, datPos', q', head)
        invariant 0 < p < |base| && base[p] == b && datPos'[q[head]] == p && Slots(check, index, b, p, todo, done)
        decreases |todo|
      {
        SomeRune(todo);
        var ch :| ch in todo;
        datPos', q' := PlaceEdge(t, datPos', q', head, index, ch, p, todo, done, tmp);
        todo, done := todo - {ch}, done + {ch};
      }
      assert done == edges.Keys && todo == {};
    }

    /** Finds and stores the base of the node at the head of the queue. */
    method ChooseBase(edges: map<Rune, int>, index: map<Rune, int>, datPos: seq<int>, q: seq<int>, head: nat,
                      ghost tmp: map<int, Word>)
      returns (b: int)
      requires Injective(tmp) && IndexOk(index, runes)
      requires head < |q| && Bfs(tmp, q, head, {}) && Placing(tmp, datPos, q, head)
      requires forall ch :: ch in edges ==> ch in runes
      modifies `base, `check, `fail, `depth, `cap
      ensures Placing(tmp, datPos, q, head)
      ensures 0 < datPos[q[head]] < |base| && base[datPos[q[head]]] == b
      ensures Slots(check, index, b, datPos[q[head]], edges.Keys, {})
    {
      hide Bfs, Packed, OwnSlots, Completes, Injective, HasState, Complete;
      var p := datPos[q[head]];
      var codes := CodesOf(edges, index, runes);
      NothingHangs(tmp, datPos, q, head, {}, path, base, check, runes, size);
      ZeroNotState(path, base, check, runes, size);
      ghost var base0, check0 := base, check;
      b := FindBase(codes);
      PlacingGrown(tmp, datPos, q, head, base0, check0);
      PackedBase(path, base, check, runes, size, p, b);
      BaseKeepsCompletes(dict, path, base, check, runes, datPos, q, head, tmp, p, b);
      base := base[p := b];
    }

    /** Places the child along one edge. */
    method PlaceEdge(t: MapTrie, datPos: seq<int>, q: seq<int>, head: nat, index: map<Rune, int>, ch: Rune, p: int,
                     ghost todo: set<Rune>, ghost done: set<Rune>, ghost tmp: map<int, Word>)
      returns (datPos': seq<int>, q': seq<int>)
      requires Plain(t, tmp, dict) && Injective(tmp) && IndexOk(index, runes) && |datPos| == |t.nodes|
      requires head < |q| && Bfs(tmp, q, head, done) && Placing(tmp, datPos, q, head)
      requires 0 < p < |base| && q[head] in tmp && datPos[q[head]] == p
      requires ch in todo && todo <= t.nodes[q[head]].Edges().Keys && todo !! done && done <= t.nodes[q[head]].Edges().Keys
      requires forall c :: c in t.nodes[q[head]].Edges() ==> c in runes
      requires Slots(check, index, base[p], p, todo, done)
      modifies `base, `check, `fail, `depth, `cap, `size, `out, `path
      ensures |datPos'| == |datPos| && q <= q' && Bfs(tmp, q', head, done + {ch}) && Placing(tmp, datPos', q', head)
      ensures 0 < p < |base| && base[p] == old(base[p]) && datPos'[q[head]] == p
      ensures Slots(check, index, base[p], p, todo - {ch}, done + {ch})
    {
      hide Packed, OwnSlots, DepthsOk, Completes, Bfs, Complete;
      var child := t.nodes[q[head]].Edges()[ch];
      ChildFacts(t, tmp, dict, q, head, ch);
      BfsVisit(tmp, q, head, done, ch, child);
      var pos := base[p] + index[ch];
      FreshWord(tmp, datPos, q, path, child);
      ZeroNotState(path, base, check, runes, size);
      ghost var path0, base0, check0 := path, base, check;
      var id := t.out.own[child];
      PlaceChild(if id != 0 then t.out.keywords[id] else [], id != 0, p, pos, index[ch], tmp[child]);
      datPos', q' := datPos[child := pos], q + [child];
      PositionsPlace(tmp, datPos, q, path0, child, pos);
      CompletesPlace(dict, path0, base0, check0, runes, datPos, q, head, pos, p, child, tmp[child]);
      CompletesGrown(dict, path, base0, check0[pos := p], base, check, runes, datPos', q', head);
    }

    // ----- failure links -----

    /** Follows failure links until a state has the code, or to the root. */
    method FollowFail(state: int, code: int, ghost depth: nat) returns (next: int)
      requires Faithful() && state in path && 0 <= code < |runes|
      requires DepthLinked(dict, path, fail, out, depth) && |path[state]| <= depth
      ensures next in path && path[next] == Landing(dict, path[state] + [runes[code]])
    {
      hide Packed, Numbering, Complete, IsAlphabet, HasState;
      ghost var goal := Landing(dict, path[state] + [runes[code]]);
      var s := state;
      GotoFaithful(s, code);
      next := Goto(base, check, size, s, code);
      while s != DAT_ROOT && next == 0
        invariant s in path && |path[s]| <= depth && 0 <= s < |base| && next == Goto(base, check, size, s, code)
        invariant Landing(dict, path[s] + [runes[code]]) == goal
        invariant if IsPath(dict, path[s] + [runes[code]]) then next in path && path[next] == path[s] + [runes[code]] && next != 0
                  else next == 0
        decreases |path[s]|
      {
        RootIs();
        assert LinkAt(dict, path, fail, out, s);
        FailStep(dict, path[s], runes[code]);
        s := fail[s];
        GotoFaithful(s, code);
        next := Goto(base, check, size, s, code);
      }
      RootIs();
      if next == 0 {
        assert (path[s] + [runes[code]])[1..] == [];
        next := DAT_ROOT;
      }
    }

    /** The failure walk of a finished double array. */
    method Follow(state: int, code: int) returns (next: int)
      requires Valid() && state in path && 0 <= code < |runes|
      ensures next in path && path[next] == Landing(dict, path[state] + [runes[code]])
      ensures DAT_ROOT <= next < size && (hasOutput[next] <==> KeywordSuffixes(dict, path[next]) != [])
    {
      AllDepthsLinked(dict, path, fail, out, |path[state]|);
      hide SetLinked, DepthLinked, TablesOk;
      next := FollowFail(state, code, |path[state]|);
      InRange();
    }

    /** Where positions lie, and that every occupied slot is a state. */
    lemma Shape()
      requires Valid()
      ensures DAT_ROOT + 1 <= size <= |check| == |base| && DAT_ROOT in path && path[DAT_ROOT] == []
      ensures forall s :: s in path ==> DAT_ROOT <= s < size
      ensures forall s :: 0 < s < size && check[s] != 0 ==> s in path
    {
      InRange();
    }

    lemma RootIs()
      requires Faithful()
      ensures DAT_ROOT in path && path[DAT_ROOT] == [] && size <= |check| == |base|
      ensures forall s :: s in path && path[s] == [] ==> s == DAT_ROOT
    {
    }

    lemma GotoFaithful(state: int, code: int)
      requires Faithful() && state in path && 0 <= code < |runes|
      ensures 0 <= state < |base| && size <= |check|
      ensures var next := Goto(base, check, size, state, code);
              if IsPath(dict, path[state] + [runes[code]]) then next in path && path[next] == path[state] + [runes[code]] && next != 0
              else next == 0
    {
      assert Complete(dict, path, base, check, runes, state);
      ZeroNotState(path, base, check, runes, size);
      GotoExact(dict, path, base, check, runes, size, state, code);
    }
  }

  ghost predicate Completes(dict: set<Word>, path: map<int, Word>, base: seq<int>, check: seq<int>, runes: seq<Rune>,
                            datPos: seq<int>, q: seq<int>, head: nat)
    requires head <= |q|
  {
    forall i {:trigger q[i]} :: 0 <= i < head ==>
      0 <= q[i] < |datPos| && datPos[q[i]] in path && Complete(dict, path, base, check, runes, datPos[q[i]])
  }

  ghost predicate IndexOk(index: map<Rune, int>, runes: seq<Rune>) {
    forall r :: r in runes ==> r in index && 0 <= index[r] < |runes| && runes[index[r]] == r
  }

  /** The children of `p` under base `b`: free slots for the runes to do, taken ones
      for those done. */
  ghost predicate Slots(check: seq<int>, index: map<Rune, int>, b: int, p: int, todo: set<Rune>, done: set<Rune>) {
    && (forall ch :: ch in todo ==> ch in index && DAT_ROOT < b + index[ch] < |check| && check[b + index[ch]] == 0)
    && (forall ch :: ch in done ==> ch in index && 0 <= b + index[ch] < |check| && check[b + index[ch]] == p)
  }

  /** Placed nodes and occupied positions correspond. */
  ghost predicate Positions(tmp: map<int, Word>, datPos: seq<int>, q: seq<int>, path: map<int, Word>) {
    && (forall i {:trigger q[i]} :: 0 <= i < |q| ==>
          q[i] in tmp && 0 <= q[i] < |datPos| && datPos[q[i]] in path && path[datPos[q[i]]] == tmp[q[i]])
    && (forall p {:trigger Placed(datPos, q, p)} :: p in path ==> Placed(datPos, q, p))
  }

  ghost predicate Placed(datPos: seq<int>, q: seq<int>, p: int) {
    exists i :: 0 <= i < |q| && 0 <= q[i] < |datPos| && datPos[q[i]] == p
  }

  /** Before its children are placed, nothing hangs off a state. */
  lemma NothingHangs(tmp: map<int, Word>, datPos: seq<int>, q: seq<int>, head: nat, done: set<Rune>,
                     path: map<int, Word>, base: seq<int>, check: seq<int>, runes: seq<Rune>, size: int)
    requires Bfs(tmp, q, head, done) && Injective(tmp) && head < |q| && done == {}
    requires Positions(tmp, datPos, q, path) && Packed(path, base, check, runes, size)
    ensures forall i :: i in path && i != DAT_ROOT && 0 <= i < |check| ==> check[i] != datPos[q[head]]
  {
    var p := datPos[q[head]];
    forall i | i in path && i != DAT_ROOT && 0 <= i < |check| ensures check[i] != p {
      assert Hangs(path, base, check, runes, i) && Placed(datPos, q, i);
      var j :| 0 <= j < |q| && 0 <= q[j] < |datPos| && datPos[q[j]] == i;
      assert q[j] in q;
      if check[i] == p {
        var ch := runes[i - base[p]];
        assert tmp[q[j]] == tmp[q[head]] + [ch];
        NotYetReached(tmp, q, head, done, ch, q[j]);
      }
    }
  }

  lemma HeadFacts(t: MapTrie, tmp: map<int, Word>, dict: set<Word>, runes: seq<Rune>, index: map<Rune, int>,
                  datPos: seq<int>, q: seq<int>, head: nat, path: map<int, Word>, base: seq<int>, check: seq<int>, size: int)
    requires Plain(t, tmp, dict) && head < |q| && Positions(tmp, datPos, q, path)
    requires forall k, r :: k in dict && r in k ==> r in runes
    ensures q[head] in tmp && 0 <= q[head] < |t.nodes|
    ensures forall ch :: ch in t.nodes[q[head]].Edges() ==> ch in runes
  {
    var edges := t.nodes[q[head]].Edges();
    assert PlainNode(t, tmp, dict, q[head]);
    forall ch | ch in edges ensures ch in runes {
      assert EdgeOk(dict, tmp, q[head], edges, ch);
      var child := edges[ch];
      assert child in tmp && tmp[child] == tmp[q[head]] + [ch];
      assert HasState(tmp, tmp[q[head]] + [ch]);
      var k :| k in dict && tmp[q[head]] + [ch] <= k;
      PrefixMember(tmp[q[head]], ch, k);
    }
  }

  lemma ChildFacts(t: MapTrie, tmp: map<int, Word>, dict: set<Word>, q: seq<int>, head: nat, ch: Rune)
    requires Plain(t, tmp, dict) && head < |q| && q[head] in tmp && ch in t.nodes[q[head]].Edges()
    ensures var child := t.nodes[q[head]].Edges()[ch];
            && child in tmp && 0 <= child < |t.nodes| && tmp[child] == tmp[q[head]] + [ch]
            && |t.out.own| == |t.nodes| && |t.out.keywords| == |t.out.runeLens|
            && (t.out.own[child] != 0 <==> tmp[child] in dict)
            && (t.out.own[child] != 0 ==> 0 < t.out.own[child] < |t.out.keywords| && t.out.keywords[t.out.own[child]] == tmp[child])
  {
    assert PlainNode(t, tmp, dict, q[head]);
    assert EdgeOk(dict, tmp, q[head], t.nodes[q[head]].Edges(), ch);
    assert PlainNode(t, tmp, dict, t.nodes[q[head]].Edges()[ch]);
  }

  /** A node without a position has a path no position stands for. */
  lemma FreshWord(tmp: map<int, Word>, datPos: seq<int>, q: seq<int>, path: map<int, Word>, child: int)
    requires Positions(tmp, datPos, q, path) && Injective(tmp) && child in tmp && child !in q
    ensures !HasState(path, tmp[child])
  {
    forall p | p in path ensures path[p] != tmp[child] {
      assert Placed(datPos, q, p);
      var i :| 0 <= i < |q| && 0 <= q[i] < |datPos| && datPos[q[i]] == p;
      assert q[i] in q;
    }
  }

  lemma PositionsPlace(tmp: map<int, Word>, datPos: seq<int>, q: seq<int>, path: map<int, Word>, child: int, pos: int)
    requires Positions(tmp, datPos, q, path) && child in tmp && 0 <= child < |datPos| && child !in q && pos !in path
    ensures Positions(tmp, datPos[child := pos], q + [child], path[pos := tmp[child]])
  {
    var datPos', q', path' := datPos[child := pos], q + [child], path[pos := tmp[child]];
    forall i | 0 <= i < |q'|
      ensures q'[i] in tmp && 0 <= q'[i] < |datPos'| && datPos'[q'[i]] in path' && path'[datPos'[q'[i]]] == tmp[q'[i]]
    {
      if i < |q| { assert q'[i] == q[i] && q[i] in q && q[i] != child; }
    }
    forall p | p in path' ensures Placed(datPos', q', p) {
      if p == pos {
        assert q'[|q|] == child;
      } else {
        assert Placed(datPos, q, p);
        var i :| 0 <= i < |q| && 0 <= q[i] < |datPos| && datPos[q[i]] == p;
        assert q'[i] == q[i] && q[i] in q;
      }
    }
  }

  lemma CompletesPlace(dict: set<Word>, path: map<int, Word>, base: seq<int>, check: seq<int>, runes: seq<Rune>,
                       datPos: seq<int>, q: seq<int>, head: nat, pos: int, p: int, child: int, w: Word)
    requires head <= |q| && Completes(dict, path, base, check, runes, datPos, q, head)
    requires pos !in path && 0 <= pos < |check| && check[pos] == 0 && child !in q && 0 <= child < |datPos| && 0 !in path
    ensures Completes(dict, path[pos := w], base, check[pos := p], runes, datPos[child := pos], q + [child], head)
  {
    forall i | 0 <= i < head
      ensures (q + [child])[i] == q[i] && 0 <= q[i] < |datPos| && datPos[child := pos][q[i]] == datPos[q[i]]
      ensures datPos[q[i]] in path && Complete(dict, path[pos := w], base, check[pos := p], runes, datPos[q[i]])
    {
      assert q[i] in q;
      CompletePlace(dict, path, base, check, runes, datPos[q[i]], pos, p, w);
    }
  }

  lemma CompletesGrown(dict: set<Word>, path: map<int, Word>, base: seq<int>, check: seq<int>, base': seq<int>, check': seq<int>,
                       runes: seq<Rune>, datPos: seq<int>, q: seq<int>, head: nat)
    requires head <= |q| && Completes(dict, path, base, check, runes, datPos, q, head)
    requires Grown(base, base') && Grown(check, check')
    ensures Completes(dict, path, base', check', runes, datPos, q, head)
  {
    forall i | 0 <= i < head
      ensures 0 <= q[i] < |datPos| && datPos[q[i]] in path && Complete(dict, path, base', check', runes, datPos[q[i]])
    {
      CompleteGrown(dict, path, base, check, runes, datPos[q[i]], base', check');
    }
  }

  lemma BaseKeepsCompletes(dict: set<Word>, path: map<int, Word>, base: seq<int>, check: seq<int>, runes: seq<Rune>,
                           datPos: seq<int>, q: seq<int>, head: nat, tmp: map<int, Word>, p: int, b: int)
    requires head < |q| && Completes(dict, path, base, check, runes, datPos, q, head) && Positions(tmp, datPos, q, path)
    requires Bfs(tmp, q, head, {}) && Injective(tmp) && p == datPos[q[head]] && 0 <= p < |base|
    ensures Completes(dict, path, base[p := b], check, runes, datPos, q, head)
  {
    forall i | 0 <= i < head
      ensures 0 <= q[i] < |datPos| && datPos[q[i]] in path && Complete(dict, path, base[p := b], check, runes, datPos[q[i]])
    {
      assert q[i] != q[head] && tmp[q[i]] != tmp[q[head]];
      assert Complete(dict, path, base, check, runes, datPos[q[i]]);
    }
  }

  /** Once every child is placed, the node at the head is complete and the queue moves on. */
  lemma HeadComplete(t: MapTrie, tmp: map<int, Word>, dict: set<Word>, runes: seq<Rune>, index: map<Rune, int>,
                     datPos: seq<int>, q: seq<int>, head: nat, path: map<int, Word>, base: seq<int>, check: seq<int>)
    requires Plain(t, tmp, dict) && head < |q| && Positions(tmp, datPos, q, path) && IndexOk(index, runes) && IsAlphabet(runes)
    requires Bfs(tmp, q, head, t.nodes[q[head]].Edges().Keys)
    requires Completes(dict, path, base, check, runes, datPos, q, head)
    requires var p := datPos[q[head]];
             0 <= p < |base| && Slots(check, index, base[p], p, {}, t.nodes[q[head]].Edges().Keys)
    ensures Completes(dict, path, base, check, runes, datPos, q, head + 1)
    ensures Bfs(tmp, q, head + 1, {})
  {
    ChildrenDone(t, tmp, dict, q, head, t.nodes[q[head]].Edges().Keys);
    var p := datPos[q[head]];
    assert PlainNode(t, tmp, dict, q[head]);
    forall code | 0 <= code < |runes| && IsPath(dict, path[p] + [runes[code]])
      ensures 0 <= p < |base| && 0 <= base[p] + code < |check| && check[base[p] + code] == p
    {
      var ch := runes[code];
      assert EdgeOk(dict, tmp, q[head], t.nodes[q[head]].Edges(), ch);
      assert ch in runes && index[ch] == code;
    }
  }

  method CodesOf(edges: map<Rune, int>, index: map<Rune, int>, ghost runes: seq<Rune>) returns (codes: seq<int>)
    requires IndexOk(index, runes) && forall ch :: ch in edges ==> ch in runes
    ensures forall i :: 0 <= i < |codes| ==> 0 <= codes[i] < |runes|
    ensures forall ch :: ch in edges ==> index[ch] in codes
  {
    codes := [];
    var todo := edges.Keys;
    while |todo| > 0
      invariant todo <= edges.Keys
      invariant forall i :: 0 <= i < |codes| ==> 0 <= codes[i] < |runes|
      invariant forall ch :: ch in edges && ch !in todo ==> index[ch] in codes
      decreases |todo|
    {
      SomeRune(todo);
      var ch :| ch in todo;
      codes := codes + [index[ch]];
      todo := todo - {ch};
    }
  }

  // ----- failure links -----

  ghost predicate LinkAt(dict: set<Word>, path: map<int, Word>, fail: seq<int>, o: Outputs, s: int)
    requires s in path
  {
    && 0 <= s < |fail| && FailOk(dict, path, s, fail[s])
    && 0 <= s < |o.outLink| && LinkOk(dict, path, s, o.outLink[s])
  }

  ghost predicate SetLinked(dict: set<Word>, path: map<int, Word>, fail: seq<int>, o: Outputs, states: set<int>) {
    forall s {:trigger LinkAt(dict, path, fail, o, s)} :: s in path && s in states ==> LinkAt(dict, path, fail, o, s)
  }

  /** The states no deeper than `depth` are linked. */
  ghost predicate DepthLinked(dict: set<Word>, path: map<int, Word>, fail: seq<int>, o: Outputs, depth: nat) {
    forall s {:trigger LinkAt(dict, path, fail, o, s)} :: s in path && |path[s]| <= depth ==> LinkAt(dict, path, fail, o, s)
  }

  function Elements(q: seq<int>): set<int> { set s | s in q }

  lemma ElementsSnoc(q: seq<int>, s: int)
    ensures Elements(q + [s]) == Elements(q) + {s}
  {
  }

  lemma LinkSet(dict: set<Word>, path: map<int, Word>, fail: seq<int>, o: Outputs, states: set<int>, depth: nat,
                s: int, f: int, link: int)
    requires SetLinked(dict, path, fail, o, states) && DepthLinked(dict, path, fail, o, depth)
    requires s in path && 0 <= s < |fail| && s < |o.outLink| && FailOk(dict, path, s, f) && LinkOk(dict, path, s, link)
    ensures SetLinked(dict, path, fail[s := f], o.(outLink := o.outLink[s := link]), states + {s})
    ensures DepthLinked(dict, path, fail[s := f], o.(outLink := o.outLink[s := link]), depth)
  {
    hide FailOk, LinkOk;
    var fail', o' := fail[s := f], o.(outLink := o.outLink[s := link]);
    forall t | t in path && (t == s || LinkAt(dict, path, fail, o, t)) ensures LinkAt(dict, path, fail', o', t) {
      assert t != s ==> 0 <= t < |fail|;
    }
    forall t | t in path && t in states + {s} ensures LinkAt(dict, path, fail', o', t) {
      assert t in states ==> LinkAt(dict, path, fail, o, t);
    }
    forall t | t in path && |path[t]| <= depth ensures LinkAt(dict, path, fail', o', t) {
      assert LinkAt(dict, path, fail, o, t);
    }
  }

  lemma AllDepthsLinked(dict: set<Word>, path: map<int, Word>, fail: seq<int>, o: Outputs, depth: nat)
    requires SetLinked(dict, path, fail, o, path.Keys)
    ensures DepthLinked(dict, path, fail, o, depth)
  {
  }

  lemma QueueLinksDepth(dict: set<Word>, path: map<int, Word>, fail: seq<int>, o: Outputs, q: seq<int>, head: nat)
    requires Bfs(path, q, head, {}) && PrefixClosed(path) && head < |q| && SetLinked(dict, path, fail, o, Elements(q))
    ensures DepthLinked(dict, path, fail, o, |path[q[head]]|)
  {
    forall s | s in path && |path[s]| <= |path[q[head]]| ensures LinkAt(dict, path, fail, o, s) {
      var i := BfsShallow(path, q, head, {}, s);
      assert q[i] in Elements(q);
    }
  }

  lemma EveryStateLinked(dict: set<Word>, path: map<int, Word>, fail: seq<int>, o: Outputs, q: seq<int>)
    requires Bfs(path, q, |q|, {}) && PrefixClosed(path) && SetLinked(dict, path, fail, o, Elements(q))
    ensures SetLinked(dict, path, fail, o, path.Keys)
  {
    forall s | s in path ensures LinkAt(dict, path, fail, o, s) {
      BfsComplete(path, q, s);
      assert s in Elements(q);
    }
  }

  /** The root and its children fail to the root and link nowhere. */
  lemma RootLinks(dict: set<Word>, path: map<int, Word>, fail: seq<int>, o: Outputs, q: seq<int>, done: set<Rune>)
    requires |q| > 0 && q[0] == DAT_ROOT && Bfs(path, q, 0, done) && path[DAT_ROOT] == []
    requires forall s :: s in q ==> 0 <= s < |fail| && s < |o.outLink| && fail[s] == DAT_ROOT && o.outLink[s] == OUT_NONE
    ensures SetLinked(dict, path, fail, o, Elements(q))
  {
    forall s | s in path && s in Elements(q) ensures LinkAt(dict, path, fail, o, s) {
      var i :| 0 <= i < |q| && q[i] == s;
      assert |path[q[i]]| <= |path[q[0]]| + 1;
      assert Rest(path[s]) == [];
    }
  }

  /** The links of a child from its parent's failure target. */
  lemma ChildLink(dict: set<Word>, path: map<int, Word>, fail: seq<int>, o: Outputs, state: int, ch: Rune, child: int, f: int)
    requires state in path && path[state] != [] && child in path && path[child] == path[state] + [ch]
    requires DepthLinked(dict, path, fail, o, |path[state]|)
    requires 0 <= state < |fail| && fail[state] in path && f in path && path[f] == Landing(dict, path[fail[state]] + [ch])
    requires OwnOk(dict, path, o, f)
    ensures FailOk(dict, path, child, f) && 0 <= f < |o.outLink|
    ensures LinkOk(dict, path, child, if o.own[f] != 0 then f else o.outLink[f])
  {
    assert LinkAt(dict, path, fail, o, state);
    var w := path[state][1..];
    LandingStep(dict, w, ch);
    assert path[child][1..] == w + [ch];
    assert LinkAt(dict, path, fail, o, f);
    LinkFromFail(dict, path, child, f, o.outLink[f]);
  }

  // ----- start and end of placement -----

  lemma QueueStart(t: MapTrie, tmp: map<int, Word>, dict: set<Word>)
    requires Plain(t, tmp, dict)
    ensures PrefixClosed(tmp) && Injective(tmp) && Bfs(tmp, [0], 0, {})
  {
    NumberingPrefixClosed(dict, 0, tmp);
    BfsStart(tmp, 0);
  }

  lemma RunesCover(keywords: seq<Word>, runes: seq<Rune>)
    requires forall r :: r in runes <==> exists k :: k in keywords && r in k
    ensures forall k, r :: k in Dictionary(keywords) && r in k ==> r in runes
  {
  }

  /** The alphabet has fewer runes than the trie has nodes: every rune ends some path. */
  lemma AlphabetSmaller(keywords: seq<Word>, runes: seq<Rune>, dict: set<Word>, tmp: map<int, Word>, n: nat)
    requires IsAlphabet(runes) && dict == Dictionary(keywords) && Numbering(dict, 0, tmp)
    requires forall r :: r in runes <==> exists k :: k in keywords && r in k
    requires forall s :: s in tmp <==> 0 <= s < n
    ensures |runes| < n
  {
    var ids := NodesForRunes(keywords, runes, dict, tmp, |runes|);
    forall i, j | 0 <= i < j < |ids| ensures ids[i] != ids[j] { assert Last(tmp[ids[i]]) != Last(tmp[ids[j]]); }
    DistinctBound([0] + ids, tmp.Keys);
    StatesBelow(tmp, n);
  }

  lemma {:induction false} NodesForRunes(keywords: seq<Word>, runes: seq<Rune>, dict: set<Word>, tmp: map<int, Word>, n: nat)
    returns (ids: seq<int>)
    requires dict == Dictionary(keywords) && Numbering(dict, 0, tmp) && n <= |runes|
    requires forall r :: r in runes <==> exists k :: k in keywords && r in k
    ensures |ids| == n
    ensures forall i :: 0 <= i < n ==> ids[i] in tmp && tmp[ids[i]] != [] && Last(tmp[ids[i]]) == runes[i]
  {
    ids := [];
    if n > 0 {
      ids := NodesForRunes(keywords, runes, dict, tmp, n - 1);
      var r := runes[n - 1];
      assert r in runes;
      var k :| k in keywords && r in k;
      var i :| 0 <= i < |k| && k[i] == r;
      assert k in dict && k[..i + 1] <= k;
      var s := StateOf(dict, 0, tmp, k[..i + 1]);
      ids := ids + [s];
    }
  }

  lemma {:induction false} StatesBelow(tmp: map<int, Word>, n: nat)
    requires forall s :: s in tmp <==> 0 <= s < n
    ensures |tmp.Keys| == n
  {
    SomeRune(tmp.Keys);
    if n > 0 {
      var rest := tmp - {n - 1};
      StatesBelow(rest, n - 1);
      assert tmp.Keys == rest.Keys + {n - 1};
    }
  }

  lemma RootPlaced(tmp: map<int, Word>, datPos: seq<int>, base: seq<int>, check: seq<int>, runes: seq<Rune>, dict: set<Word>)
    requires 0 in tmp && tmp[0] == [] && |datPos| > 0 && datPos[0] == DAT_ROOT
    requires |base| == |check| > DAT_ROOT && check[0] == -1 && forall i :: 0 < i < |check| ==> check[i] == 0
    ensures var path := map[DAT_ROOT := []];
            && Packed(path, base, check, runes, DAT_ROOT + 1) && Positions(tmp, datPos, [0], path)
            && Completes(dict, path, base, check, runes, datPos, [0], 0) && OwnSlots(dict, path, Outputs([], [], [], []))
  {
    assert [0][0] == 0;
    assert Placed(datPos, [0], DAT_ROOT);
  }

  /** Once the queue is empty every trie path has its position. */
  lemma AllPlaced(t: MapTrie, tmp: map<int, Word>, dict: set<Word>, datPos: seq<int>, q: seq<int>, path: map<int, Word>,
                  base: seq<int>, check: seq<int>, runes: seq<Rune>, size: int)
    requires Plain(t, tmp, dict) && PrefixClosed(tmp) && Bfs(tmp, q, |q|, {}) && Positions(tmp, datPos, q, path)
    requires Completes(dict, path, base, check, runes, datPos, q, |q|)
    requires Packed(path, base, check, runes, size)
    ensures Numbering(dict, DAT_ROOT, path)
    ensures forall p {:trigger Complete(dict, path, base, check, runes, p)} :: p in path ==>
              Complete(dict, path, base, check, runes, p)
  {
    forall w ensures HasState(path, w) <==> IsPath(dict, w) {
      if HasState(path, w) {
        var p :| p in path && path[p] == w;
        assert Placed(datPos, q, p);
        var i :| 0 <= i < |q| && 0 <= q[i] < |datPos| && datPos[q[i]] == p;
        assert HasState(tmp, tmp[q[i]]);
      }
      if IsPath(dict, w) {
        var s := StateOf(dict, 0, tmp, w);
        BfsComplete(tmp, q, s);
        var i :| 0 <= i < |q| && q[i] == s;
        assert datPos[q[i]] in path && path[datPos[q[i]]] == w;
      }
    }
    forall p | p in path ensures Complete(dict, path, base, check, runes, p) {
      assert Placed(datPos, q, p);
      var i :| 0 <= i < |q| && 0 <= q[i] < |datPos| && datPos[q[i]] == p;
    }
  }

  ghost predicate OwnsOk(dict: set<Word>, path: map<int, Word>, o: Outputs) {
    forall s {:trigger OwnOk(dict, path, o, s)} :: s in path ==> OwnOk(dict, path, o, s)
  }

  /** Own slots do not depend on the output links. */
  lemma OwnsSame(dict: set<Word>, path: map<int, Word>, o: Outputs, o': Outputs)
    requires OwnsOk(dict, path, o) && o'.own == o.own && o'.keywords == o.keywords && o'.runeLens == o.runeLens
    ensures OwnsOk(dict, path, o')
  {
    forall s | s in path ensures OwnOk(dict, path, o', s) { assert OwnOk(dict, path, o, s); }
  }

  lemma OwnsPadded(dict: set<Word>, path: map<int, Word>, o: Outputs, o': Outputs, size: int)
    requires OwnSlots(dict, path, o) && forall s :: s in path ==> 0 <= s < size
    requires o'.keywords == o.keywords && o'.runeLens == o.runeLens && |o'.own| >= size
    requires o.own <= o'.own && forall i :: |o.own| <= i < |o'.own| ==> o'.own[i] == 0
    ensures OwnsOk(dict, path, o')
  {
    forall s | s in path ensures OwnOk(dict, path, o', s) { assert OwnSlot(dict, path, o, s); }
  }

  lemma LinksGiveTables(dict: set<Word>, path: map<int, Word>, fail: seq<int>, o: Outputs)
    requires SetLinked(dict, path, fail, o, path.Keys) && OUT_NONE !in path && |o.own| == |o.outLink|
    requires OwnsOk(dict, path, o)
    ensures TablesOk(dict, path, o)
  {
    forall s | s in path ensures StateOk(dict, path, o, s) {
      assert LinkAt(dict, path, fail, o, s) && OwnOk(dict, path, o, s);
    }
  }
}
