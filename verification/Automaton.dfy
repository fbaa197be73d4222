/** The mathematics shared by the three automata: trie paths, where a scan lands,
    failure and output links, and breadth-first order over trie states.

    An automaton state stands for a trie path (a prefix of some keyword).  Engines
    number states differently, so everything here speaks of a numbering
    `path: map<int, Word>` that gives each state its path. */
module Automaton {
  import opened Matching

  // ----- trie paths and where a scan lands -----

  ghost predicate IsPath(dict: set<Word>, p: Word) {
    p == [] || exists k :: k in dict && p <= k
  }

  lemma KeywordIsPath(dict: set<Word>, k: Word)
    ensures k in dict ==> IsPath(dict, k)
  {
    assert k <= k;
  }

  /** The longest suffix of `w` that is a trie path: the state a scan of `w` is in. */
  ghost function Landing(dict: set<Word>, w: Word): (p: Word)
    ensures IsPath(dict, p) && IsSuffix(p, w)
    decreases |w|
  {
    if IsPath(dict, w) then w
    else
      var p := Landing(dict, w[1..]);
      assert w[1..][|w| - 1 - |p|..] == w[|w| - |p|..];
      p
  }

  /** `Landing` really is the longest: no longer suffix is a trie path. */
  lemma {:induction false} LandingLongest(dict: set<Word>, w: Word, s: Word)
    requires IsSuffix(s, w) && IsPath(dict, s)
    ensures |s| <= |Landing(dict, w)|
    decreases |w|
  {
    if !IsPath(dict, w) {
      assert s == w[1..][|w| - 1 - |s|..];
      LandingLongest(dict, w[1..], s);
    }
  }

  lemma PathPrefixClosed(dict: set<Word>, p: Word, c: Rune)
    requires IsPath(dict, p + [c])
    ensures IsPath(dict, p)
  {
    var k :| k in dict && p + [c] <= k;
    assert p <= k;
  }

  /** One more rune: the landing of `w + [c]` depends on `w` only through its landing. */
  lemma {:induction false} LandingStep(dict: set<Word>, w: Word, c: Rune)
    ensures Landing(dict, w + [c]) == Landing(dict, Landing(dict, w) + [c])
    decreases |w|
  {
    if !IsPath(dict, w) {
      if IsPath(dict, w + [c]) { PathPrefixClosed(dict, w, c); }
      assert (w + [c])[1..] == w[1..] + [c];
      LandingStep(dict, w[1..], c);
    }
  }

  /** The failure path of a non-root path. */
  ghost function FailPath(dict: set<Word>, p: Word): (f: Word)
    requires p != []
    ensures |f| < |p| && IsPath(dict, f)
  {
    Landing(dict, p[1..])
  }

  /** A failure hop does not change where the next rune leads. */
  lemma FailStep(dict: set<Word>, p: Word, c: Rune)
    requires p != [] && !IsPath(dict, p + [c])
    ensures Landing(dict, p + [c]) == Landing(dict, FailPath(dict, p) + [c])
  {
    assert (p + [c])[1..] == p[1..] + [c];
    LandingStep(dict, p[1..], c);
  }

  /** The keywords ending after `w` are those ending in the state where `w` lands. */
  lemma {:induction false} LandingKeepsOutputs(dict: set<Word>, w: Word)
    ensures KeywordSuffixes(dict, w) == KeywordSuffixes(dict, Landing(dict, w))
    decreases |w|
  {
    if !IsPath(dict, w) {
      assert w !in dict by { assert w <= w; }
      LandingKeepsOutputs(dict, w[1..]);
    }
  }

  lemma PrefixMember(w: Word, c: Rune, k: Word)
    requires w + [c] <= k
    ensures c in k
  {
    assert k[|w|] == (w + [c])[|w|];
  }

  /** A word with a rune no keyword contains lands at the root after that rune. */
  lemma {:induction false} ForeignRuneLandsAtRoot(dict: set<Word>, w: Word, c: Rune)
    requires forall k :: k in dict ==> c !in k
    ensures Landing(dict, w + [c]) == []
    decreases |w|
  {
    assert !IsPath(dict, w + [c]) by {
      if IsPath(dict, w + [c]) {
        var k :| k in dict && w + [c] <= k;
        PrefixMember(w, c, k);
      }
    }
    if w != [] {
      assert (w + [c])[1..] == w[1..] + [c];
      ForeignRuneLandsAtRoot(dict, w[1..], c);
    } else {
      assert (w + [c])[1..] == [];
    }
  }

  // ----- output chains -----

  function Rest(p: Word): Word { if p == [] then [] else p[1..] }

  /** The list of keyword suffixes starts over at its first element. */
  lemma {:induction false} ChainStartsOver(dict: set<Word>, w: Word)
    requires KeywordSuffixes(dict, w) != []
    ensures var k := KeywordSuffixes(dict, w)[0];
            k in dict && k != [] && |k| <= |w| && KeywordSuffixes(dict, w) == KeywordSuffixes(dict, k)
  {
    if w !in dict { ChainStartsOver(dict, w[1..]); }
  }

  // ----- numberings -----

  ghost predicate HasState(path: map<int, Word>, p: Word) {
    exists s :: s in path && path[s] == p
  }

  ghost predicate Numbering(dict: set<Word>, root: int, path: map<int, Word>) {
    && root in path && path[root] == []
    && Injective(path)
    && (forall p {:trigger HasState(path, p)} :: HasState(path, p) <==> IsPath(dict, p))
  }

  lemma StateOf(dict: set<Word>, root: int, path: map<int, Word>, p: Word) returns (s: int)
    requires Numbering(dict, root, path) && IsPath(dict, p)
    ensures s in path && path[s] == p
  {
    assert HasState(path, p);
    s :| s in path && path[s] == p;
  }

  /** All trie paths of a dictionary. */
  ghost function TriePaths(dict: set<Word>): set<Word> {
    {[]} + set k, i: nat | k in dict && i <= |k| :: k[..i]
  }

  lemma TriePathsExact(dict: set<Word>, p: Word)
    ensures p in TriePaths(dict) <==> IsPath(dict, p)
  {
    if k :| k in dict && p <= k { assert p == k[..|p|]; }
  }

  /** A numbering has as many states as the dictionary has trie paths. */
  lemma NumberingSize(dict: set<Word>, root: int, path: map<int, Word>)
    requires Numbering(dict, root, path)
    ensures |path| == |TriePaths(dict)|
  {
    hide TriePaths;
    var image := set s | s in path :: path[s];
    forall p ensures p in image <==> p in TriePaths(dict) {
      TriePathsExact(dict, p);
      assert HasState(path, p) <==> p in image;
    }
    assert image == TriePaths(dict);
    InjectiveSize(path, path.Keys);
  }

  lemma {:induction false} InjectiveSize(path: map<int, Word>, states: set<int>)
    requires Injective(path) && states <= path.Keys
    ensures |set s | s in states :: path[s]| == |states|
    decreases |states|
  {
    SomeRune(states);
    if |states| > 0 {
      var s :| s in states;
      InjectiveSize(path, states - {s});
      var rest := set t | t in states - {s} :: path[t];
      assert (set t | t in states :: path[t]) == rest + {path[s]};
      assert path[s] !in rest;
    } else {
      assert states == {};
    }
  }

  /** `f` is the right failure target of state `s`. */
  ghost predicate FailOk(dict: set<Word>, path: map<int, Word>, s: int, f: int) {
    s in path && f in path && path[f] == Landing(dict, Rest(path[s]))
  }

  /** `link` is the nearest keyword-carrying state below `s` on its failure path. */
  ghost predicate LinkOk(dict: set<Word>, path: map<int, Word>, s: int, link: int) {
    s in path &&
    var below := KeywordSuffixes(dict, Rest(path[s]));
    if below == [] then link == -1 else link in path && path[link] == below[0]
  }

  /** The edges of state `s` are exactly the trie edges. */
  ghost predicate EdgesOk(dict: set<Word>, path: map<int, Word>, s: int, edges: map<Rune, int>) {
    s in path && forall ch :: EdgeOk(dict, path, s, edges, ch)
  }

  ghost predicate EdgeOk(dict: set<Word>, path: map<int, Word>, s: int, edges: map<Rune, int>, ch: Rune)
    requires s in path
  {
    if ch in edges then edges[ch] in path && path[edges[ch]] == path[s] + [ch]
    else !IsPath(dict, path[s] + [ch])
  }

  /** The output link of a state from its failure target's own keyword and link:
      the linking rule every build uses. */
  lemma LinkFromFail(dict: set<Word>, path: map<int, Word>, s: int, f: int, linkOfF: int)
    requires FailOk(dict, path, s, f) && LinkOk(dict, path, f, linkOfF)
    ensures path[f] in dict && path[f] != [] ==> LinkOk(dict, path, s, f)
    ensures path[f] !in dict || path[f] == [] ==> LinkOk(dict, path, s, linkOfF)
  {
    LandingKeepsOutputs(dict, Rest(path[s]));
  }

  // ----- breadth-first order -----

  function Parent(p: Word): Word requires p != [] { p[..|p| - 1] }
  function Last(p: Word): Rune requires p != [] { p[|p| - 1] }

  ghost predicate PrefixClosed(path: map<int, Word>) {
    forall s :: s in path && path[s] != [] ==> HasState(path, Parent(path[s]))
  }

  ghost predicate Injective(path: map<int, Word>) {
    forall s, t :: s in path && t in path && path[s] == path[t] ==> s == t
  }

  lemma NumberingPrefixClosed(dict: set<Word>, root: int, path: map<int, Word>)
    requires Numbering(dict, root, path)
    ensures PrefixClosed(path) && Injective(path)
  {
    forall s | s in path && path[s] != [] ensures HasState(path, Parent(path[s])) {
      assert HasState(path, path[s]) && path[s] == Parent(path[s]) + [Last(path[s])];
      PathPrefixClosed(dict, Parent(path[s]), Last(path[s]));
    }
  }

  /** Whether the state of `p` has been reached once the states `q[..head]` are
      processed and `q[head]` has had the runes `done` examined. */
  ghost predicate Reached(path: map<int, Word>, q: seq<int>, head: nat, done: set<Rune>, p: Word)
    requires head <= |q| && forall i :: 0 <= i < |q| ==> q[i] in path
  {
    || p == []
    || (exists i :: 0 <= i < head && path[q[i]] == Parent(p))
    || (head < |q| && path[q[head]] == Parent(p) && Last(p) in done)
  }

  /** `q` is a breadth-first order in progress: processed states, then the queue. */
  ghost predicate Bfs(path: map<int, Word>, q: seq<int>, head: nat, done: set<Rune>) {
    && head <= |q|
    && (forall i :: 0 <= i < |q| ==> q[i] in path)
    && (forall i, j :: 0 <= i < j < |q| ==> q[i] != q[j] && |path[q[i]]| <= |path[q[j]]|)
    && (head < |q| ==> forall i :: 0 <= i < |q| ==> |path[q[i]]| <= |path[q[head]]| + 1)
    && (forall s {:trigger Reached(path, q, head, done, path[s])} ::
          s in path ==> (s in q <==> Reached(path, q, head, done, path[s])))
  }

  lemma BfsStart(path: map<int, Word>, root: int)
    requires root in path && path[root] == [] && Injective(path)
    ensures Bfs(path, [root], 0, {})
  {
  }

  lemma BfsVisit(path: map<int, Word>, q: seq<int>, head: nat, done: set<Rune>, ch: Rune, child: int)
    requires Bfs(path, q, head, done) && Injective(path) && head < |q| && ch !in done
    requires child in path && path[child] == path[q[head]] + [ch]
    ensures child !in q
    ensures Bfs(path, q + [child], head, done + {ch})
  {
    NotYetReached(path, q, head, done, ch, child);
    var q' := q + [child];
    forall s | s in path ensures s in q' <==> Reached(path, q', head, done + {ch}, path[s]) {
      ReachedGrows(path, q, head, done, ch, child, path[s]);
      if s == child { assert s == q'[|q|]; }
    }
  }

  lemma NotYetReached(path: map<int, Word>, q: seq<int>, head: nat, done: set<Rune>, ch: Rune, child: int)
    requires Bfs(path, q, head, done) && Injective(path) && head < |q| && ch !in done
    requires child in path && path[child] == path[q[head]] + [ch]
    ensures child !in q
  {
    assert Parent(path[child]) == path[q[head]] && Last(path[child]) == ch;
    forall i | 0 <= i < head ensures path[q[i]] != Parent(path[child]) { assert q[i] != q[head]; }
    assert !Reached(path, q, head, done, path[child]);
  }

  lemma ReachedGrows(path: map<int, Word>, q: seq<int>, head: nat, done: set<Rune>, ch: Rune, child: int, p: Word)
    requires head < |q| && child in path && forall i :: 0 <= i < |q| ==> q[i] in path
    ensures Reached(path, q + [child], head, done + {ch}, p) <==>
              Reached(path, q, head, done, p) || p == path[q[head]] + [ch]
  {
    assert forall i :: 0 <= i < |q| ==> (q + [child])[i] == q[i];
    if p != [] && path[q[head]] == Parent(p) { assert p == path[q[head]] + [Last(p)]; }
  }

  lemma BfsSkip(path: map<int, Word>, q: seq<int>, head: nat, done: set<Rune>, ch: Rune)
    requires Bfs(path, q, head, done) && head < |q|
    requires !HasState(path, path[q[head]] + [ch])
    ensures Bfs(path, q, head, done + {ch})
  {
    forall s | s in path ensures s in q <==> Reached(path, q, head, done + {ch}, path[s]) {
      assert s in q <==> Reached(path, q, head, done, path[s]);
      if path[s] != [] && path[q[head]] == Parent(path[s]) {
        assert path[s] == path[q[head]] + [Last(path[s])] && HasState(path, path[s]);
      }
    }
  }

  lemma BfsNext(path: map<int, Word>, q: seq<int>, head: nat, done: set<Rune>)
    requires Bfs(path, q, head, done) && head < |q|
    requires forall ch :: HasState(path, path[q[head]] + [ch]) ==> ch in done
    ensures Bfs(path, q, head + 1, {})
  {
    forall s | s in path ensures s in q <==> Reached(path, q, head + 1, {}, path[s]) {
      assert s in q <==> Reached(path, q, head, done, path[s]);
      if path[s] != [] && path[q[head]] == Parent(path[s]) {
        assert path[s] == path[q[head]] + [Last(path[s])] && HasState(path, path[s]);
      }
    }
  }

  /** When a state is processed, every state that is no deeper has been reached,
      and every shallower one has been processed. */
  lemma {:induction false} BfsShallow(path: map<int, Word>, q: seq<int>, head: nat, done: set<Rune>, s: int) returns (i: nat)
    requires Bfs(path, q, head, done) && PrefixClosed(path) && head < |q|
    requires s in path && |path[s]| <= |path[q[head]]|
    ensures i < |q| && q[i] == s
    ensures |path[s]| < |path[q[head]]| ==> i < head
    decreases |path[s]|
  {
    if path[s] != [] {
      var t :| t in path && path[t] == Parent(path[s]);
      var j := BfsShallow(path, q, head, done, t);
      assert path[q[j]] == Parent(path[s]);
    }
    i := ReachedIndex(path, q, head, done, s);
  }

  lemma ReachedIndex(path: map<int, Word>, q: seq<int>, head: nat, done: set<Rune>, s: int) returns (i: nat)
    requires Bfs(path, q, head, done) && head < |q| && s in path
    requires Reached(path, q, head, done, path[s])
    ensures i < |q| && q[i] == s
    ensures |path[s]| < |path[q[head]]| ==> i < head
  {
    assert s in q;
    i :| 0 <= i < |q| && q[i] == s;
    assert head < i ==> |path[q[head]]| <= |path[q[i]]|;
  }

  lemma BfsOrder(path: map<int, Word>, q: seq<int>, head: nat, done: set<Rune>, i: nat, j: nat)
    requires Bfs(path, q, head, done) && i < |q| && j < |q|
    ensures i <= j ==> |path[q[i]]| <= |path[q[j]]|
  {
  }

  /** A finished order lists every state. */
  lemma {:induction false} BfsComplete(path: map<int, Word>, q: seq<int>, s: int)
    requires Bfs(path, q, |q|, {}) && PrefixClosed(path) && s in path
    ensures s in q
    decreases |path[s]|
  {
    if path[s] != [] {
      var t :| t in path && path[t] == Parent(path[s]);
      BfsComplete(path, q, t);
    }
    assert Reached(path, q, |q|, {}, path[s]);
  }

  lemma {:induction false} DistinctBound(q: seq<int>, s: set<int>)
    requires forall i, j :: 0 <= i < j < |q| ==> q[i] != q[j]
    requires forall i :: 0 <= i < |q| ==> q[i] in s
    ensures |q| <= |s|
  {
    if q != [] {
      var n := |q| - 1;
      DistinctBound(q[..n], s - {q[n]});
    }
  }

  /** The queue never outgrows the trie, so every breadth-first loop ends. */
  lemma BfsBound(path: map<int, Word>, q: seq<int>, head: nat, done: set<Rune>)
    requires Bfs(path, q, head, done)
    ensures |q| <= |path.Keys|
  {
    DistinctBound(q, path.Keys);
  }

  // ----- growing a trie -----

  /** Adding a one-rune extension of a path adds just that path. */
  lemma OneMorePath(dict: set<Word>, p: Word, ch: Rune, q: Word)
    requires IsPath(dict, p)
    ensures IsPath(dict + {p + [ch]}, q) <==> IsPath(dict, q) || q == p + [ch]
  {
    var n := p + [ch];
    if IsPath(dict + {n}, q) && q != [] {
      var k :| k in dict + {n} && q <= k;
      if k == n && q != n { assert q <= p; ShorterPath(dict, p, q); }
    }
    if IsPath(dict, q) && q != [] {
      var k :| k in dict && q <= k;
      assert k in dict + {n};
    }
    if q == n { assert n in dict + {n} && q <= n; }
  }

  lemma ShorterPath(dict: set<Word>, p: Word, q: Word)
    requires IsPath(dict, p) && q <= p
    ensures IsPath(dict, q)
  {
    if q != [] {
      var k :| k in dict && p <= k;
      assert q <= k;
    }
  }

  /** Growing the word being inserted by a rune: the set of paths is that of the
      finished words `dict` together with the part `cur` inserted so far. */
  lemma GrowCurrent(dict: set<Word>, cur: Word, ch: Rune, q: Word)
    ensures IsPath(dict + {cur + [ch]}, q) <==> IsPath(dict + {cur}, q) || q == cur + [ch]
  {
    var old_, grown := dict + {cur}, dict + {cur + [ch]};
    assert IsPath(old_, cur) by { assert cur in old_ && cur <= cur; }
    OneMorePath(old_, cur, ch, q);
    if q != [] {
      if IsPath(old_ + {cur + [ch]}, q) {
        var k :| k in old_ + {cur + [ch]} && q <= k;
        if k == cur { assert q <= cur + [ch] && cur + [ch] in grown; } else { assert k in grown; }
      }
      if IsPath(grown, q) {
        var k :| k in grown && q <= k;
        assert k in old_ + {cur + [ch]};
      }
    }
  }

  lemma EmptyWordAddsNoPath(dict: set<Word>, q: Word)
    ensures IsPath(dict + {[]}, q) <==> IsPath(dict, q)
  {
    if q != [] {
      if IsPath(dict + {[]}, q) { var k :| k in dict + {[]} && q <= k; assert k in dict; }
      if IsPath(dict, q) { var k :| k in dict && q <= k; assert k in dict + {[]}; }
    }
  }

  /** Following an existing edge changes no path. */
  lemma ExistingEdge(dict: set<Word>, cur: Word, ch: Rune, q: Word)
    requires IsPath(dict + {cur}, cur + [ch])
    ensures IsPath(dict + {cur + [ch]}, q) <==> IsPath(dict + {cur}, q)
  {
    GrowCurrent(dict, cur, ch, q);
  }

  /** A new leaf extends a numbering. */
  lemma NewLeaf(dict: set<Word>, cur: Word, root: int, path: map<int, Word>, ch: Rune, child: int)
    requires Numbering(dict + {cur}, root, path) && child !in path
    requires !IsPath(dict + {cur}, cur + [ch])
    ensures Numbering(dict + {cur + [ch]}, root, path[child := cur + [ch]])
  {
    var path' := path[child := cur + [ch]];
    forall p ensures HasState(path', p) <==> IsPath(dict + {cur + [ch]}, p) {
      GrowCurrent(dict, cur, ch, p);
      assert HasState(path, p) <==> IsPath(dict + {cur}, p);
      if HasState(path, p) {
        var s :| s in path && path[s] == p;
        assert s in path' && path'[s] == p;
      }
      if p == cur + [ch] { assert child in path' && path'[child] == p; }
      if HasState(path', p) && p != cur + [ch] {
        var s :| s in path' && path'[s] == p;
        assert s in path && path[s] == p;
      }
    }
    forall s | s in path ensures path[s] != cur + [ch] { assert HasState(path, path[s]); }
  }

  /** Edges of old states after a leaf was added below state `at`. */
  lemma EdgesAfterLeaf(dict: set<Word>, cur: Word, path: map<int, Word>, at: int, ch: Rune, child: int,
                       s: int, edges: map<Rune, int>)
    requires at in path && path[at] == cur && child !in path && Injective(path)
    requires s in path && EdgesOk(dict + {cur}, path, s, edges)
    ensures s != at ==> EdgesOk(dict + {cur + [ch]}, path[child := cur + [ch]], s, edges)
    ensures s == at ==> EdgesOk(dict + {cur + [ch]}, path[child := cur + [ch]], s, edges[ch := child])
  {
    var path' := path[child := cur + [ch]];
    var edges' := if s == at then edges[ch := child] else edges;
    forall c ensures EdgeOk(dict + {cur + [ch]}, path', s, edges', c) {
      GrowCurrent(dict, cur, ch, path[s] + [c]);
      assert EdgeOk(dict + {cur}, path, s, edges, c);
      assert path[s] + [c] == cur + [ch] ==> path[s] == cur && c == ch by {
        if path[s] + [c] == cur + [ch] { SnocInjective(path[s], c, cur, ch); }
      }
    }
  }

  lemma SnocInjective(a: Word, c: Rune, b: Word, d: Rune)
    requires a + [c] == b + [d]
    ensures a == b && c == d
  {
    assert (a + [c])[..|a|] == a && (b + [d])[..|b|] == b && (a + [c])[|a|] == c && (b + [d])[|b|] == d;
  }

  /** A new leaf has no edges. */
  lemma LeafHasNoEdges(dict: set<Word>, cur: Word, path: map<int, Word>, ch: Rune, child: int)
    requires !IsPath(dict + {cur}, cur + [ch]) && child in path && path[child] == cur + [ch]
    ensures EdgesOk(dict + {cur + [ch]}, path, child, map[])
  {
    forall c ensures EdgeOk(dict + {cur + [ch]}, path, child, map[], c) {
      GrowCurrent(dict, cur, ch, cur + [ch] + [c]);
      if IsPath(dict + {cur}, cur + [ch] + [c]) { ShorterPath(dict + {cur}, cur + [ch] + [c], cur + [ch]); }
    }
  }

  /** Numberings and edges depend on the dictionary only through its paths. */
  lemma SamePaths(a: set<Word>, b: set<Word>, root: int, path: map<int, Word>)
    requires Numbering(a, root, path)
    requires forall p :: IsPath(a, p) <==> IsPath(b, p)
    ensures Numbering(b, root, path)
    ensures forall s, edges {:trigger EdgesOk(b, path, s, edges)} :: EdgesOk(a, path, s, edges) ==> EdgesOk(b, path, s, edges)
  {
    forall s, edges | EdgesOk(a, path, s, edges) ensures EdgesOk(b, path, s, edges) {
      forall ch ensures EdgeOk(b, path, s, edges, ch) { assert EdgeOk(a, path, s, edges, ch); }
    }
  }
}
