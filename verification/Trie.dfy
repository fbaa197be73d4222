/** Building a trie: inserting keywords, then setting failure and output links in
    breadth-first order (internal/engine/engine_map.go; the full-DFA engine in
    internal/engine/engine_flat.go builds the same trie, with its children visited in
    rune order, and the double-array engine inserts keywords the same way). */
module TrieBuild {
  import opened Matching
  import opened Automaton
  import opened OutputTables

  datatype Option<+T> = None | Some(value: T)

  /** A trie node.  A lone edge is kept inline; a map is allocated once it branches. */
  datatype MapNode = MapNode(children: Option<map<Rune, int>>, singleRune: Rune, singleChild: int,
                             fail: int, depth: int)
  {
    /** The edges the node represents. */
    function Edges(): map<Rune, int> {
      match children
      case Some(m) => m
      case None => if singleChild != 0 then map[singleRune := singleChild] else map[]
    }

    function Next(ch: Rune): (r: (int, bool))
      ensures r.1 == (ch in Edges())
      ensures r.1 ==> r.0 == Edges()[ch]
    {
      match children
      case Some(m) => if ch in m then (m[ch], true) else (0, false)
      case None => (singleChild, singleChild != 0 && singleRune == ch)
    }

    function AddChild(ch: Rune, child: int): (n: MapNode)
      requires child != 0 && ch !in Edges()
      ensures n.Edges() == Edges()[ch := child]
      ensures n.fail == fail && n.depth == depth
    {
      match children
      case Some(m) => this.(children := Some(m[ch := child]))
      case None =>
        if singleChild == 0 then this.(singleRune := ch, singleChild := child)
        else this.(children := Some(map[singleRune := singleChild, ch := child]), singleChild := 0)
    }
  }

  function NewNode(depth: int): (n: MapNode)
    ensures n.Edges() == map[] && n.fail == 0 && n.depth == depth
  {
    MapNode(None, 0, 0, 0, depth)
  }

  datatype MapTrie = MapTrie(nodes: seq<MapNode>, out: Outputs)

  // ----- inserting keywords -----

  ghost predicate Shaped(t: MapTrie, path: map<int, Word>) {
    && |t.out.own| == |t.out.outLink| == |t.nodes| && |t.out.keywords| == |t.out.runeLens| > 0
    && (forall s :: s in path <==> 0 <= s < |t.nodes|)
  }

  /** A node while keywords are inserted: `dict` holds the finished keywords and
      `cur` is the part of the current one that has been inserted. */
  ghost predicate GrowingNode(t: MapTrie, path: map<int, Word>, dict: set<Word>, cur: Word, s: int)
    requires Shaped(t, path) && s in path
  {
    && EdgesOk(dict + {cur}, path, s, t.nodes[s].Edges())
    && OwnOk(dict, path, t.out, s)
    && t.out.outLink[s] == OUT_NONE && t.nodes[s].fail == 0 && t.nodes[s].depth == |path[s]|
  }

  ghost predicate Growing(t: MapTrie, path: map<int, Word>, dict: set<Word>, cur: Word) {
    && Shaped(t, path)
    && Numbering(dict + {cur}, 0, path)
    && (forall s {:trigger GrowingNode(t, path, dict, cur, s)} :: s in path ==> GrowingNode(t, path, dict, cur, s))
  }

  /** Follows or creates the edge for one rune of the keyword being inserted. */
  method Descend(t: MapTrie, state: int, ch: Rune, ghost path: map<int, Word>, ghost dict: set<Word>)
    returns (t': MapTrie, child: int, ghost path': map<int, Word>)
    requires state in path && Growing(t, path, dict, path[state])
    ensures child in path' && path'[child] == path[state] + [ch]
    ensures Growing(t', path', dict, path'[child])
  {
    assert GrowingNode(t, path, dict, path[state], state);
    ghost var cur := path[state];
    assert EdgeOk(dict + {cur}, path, state, t.nodes[state].Edges(), ch);
    var (next, ok) := t.nodes[state].Next(ch);
    if ok {
      t', child, path' := t, next, path;
      forall q ensures IsPath(dict + {cur}, q) <==> IsPath(dict + {cur + [ch]}, q) {
        assert HasState(path, cur + [ch]);
        ExistingEdge(dict, cur, ch, q);
      }
      SamePaths(dict + {cur}, dict + {cur + [ch]}, 0, path);
      forall s | s in path ensures GrowingNode(t, path, dict, cur + [ch], s) {
        assert GrowingNode(t, path, dict, cur, s);
      }
    } else {
      child := |t.nodes|;
      path' := path[child := cur + [ch]];
      t' := MapTrie(t.nodes[state := t.nodes[state].AddChild(ch, child)] + [NewNode(t.nodes[state].depth + 1)],
                    t.out.(own := t.out.own + [0], outLink := t.out.outLink + [OUT_NONE]));
      NewLeaf(dict, cur, 0, path, ch, child);
      forall s | s in path' ensures GrowingNode(t', path', dict, cur + [ch], s) {
        AddedLeaf(t, path, dict, state, ch, t', s);
      }
    }
  }

  lemma AddedLeaf(t: MapTrie, path: map<int, Word>, dict: set<Word>, state: int, ch: Rune, t': MapTrie, s: int)
    requires state in path && Growing(t, path, dict, path[state])
    requires ch !in t.nodes[state].Edges() && !IsPath(dict + {path[state]}, path[state] + [ch])
    requires t' == MapTrie(t.nodes[state := t.nodes[state].AddChild(ch, |t.nodes|)] + [NewNode(t.nodes[state].depth + 1)],
                           t.out.(own := t.out.own + [0], outLink := t.out.outLink + [OUT_NONE]))
    requires s in path || s == |t.nodes|
    ensures var path' := path[|t.nodes| := path[state] + [ch]];
            Shaped(t', path') && GrowingNode(t', path', dict, path[state] + [ch], s)
  {
    var cur, child := path[state], |t.nodes|;
    var path' := path[child := cur + [ch]];
    assert GrowingNode(t, path, dict, cur, state);
    if s == child {
      LeafHasNoEdges(dict, cur, path', ch, child);
      KeywordIsPath(dict + {cur}, cur + [ch]);
    } else {
      assert GrowingNode(t, path, dict, cur, s);
      EdgesAfterLeaf(dict, cur, path, state, ch, child, s, t.nodes[s].Edges());
    }
  }

  /** Inserts one non-empty keyword. */
  method Insert(t: MapTrie, kw: Word, ghost path: map<int, Word>, ghost dict: set<Word>)
    returns (t': MapTrie, ghost path': map<int, Word>)
    requires Growing(t, path, dict, []) && kw != []
    ensures Growing(t', path', dict + {kw}, [])
  {
    t', path' := t, path;
    var state, i := 0, 0;
    while i < |kw|
      invariant 0 <= i <= |kw| && state in path' && path'[state] == kw[..i]
      invariant Growing(t', path', dict, kw[..i])
    {
      assert kw[..i + 1] == kw[..i] + [kw[i]];
      t', state, path' := Descend(t', state, kw[i], path', dict);
      i := i + 1;
    }
    assert kw[..i] == kw;
    assert GrowingNode(t', path', dict, kw, state);
    var (out, id) := t'.out.Assign(t'.out.own[state], kw);
    ghost var before := t';
    t' := t'.(out := out.(own := out.own[state := id]));
    Finished(before, path', dict, kw, state, t');
  }

  lemma Finished(t: MapTrie, path: map<int, Word>, dict: set<Word>, kw: Word, state: int, t': MapTrie)
    requires Growing(t, path, dict, kw) && kw != [] && state in path && path[state] == kw
    requires 0 <= t.out.own[state] < |t.out.keywords|
    requires var (out, id) := t.out.Assign(t.out.own[state], kw);
             t' == t.(out := out.(own := out.own[state := id]))
    ensures Growing(t', path, dict + {kw}, [])
  {
    forall q ensures IsPath(dict + {kw}, q) <==> IsPath(dict + {kw} + {[]}, q) { EmptyWordAddsNoPath(dict + {kw}, q); }
    SamePaths(dict + {kw}, dict + {kw} + {[]}, 0, path);
    forall s | s in path ensures GrowingNode(t', path, dict + {kw}, [], s) {
      assert GrowingNode(t, path, dict, kw, s) && GrowingNode(t, path, dict, kw, state);
      assert s != state ==> path[s] != kw;
    }
  }

  /** The dictionary of a keyword sequence: its non-empty words. */
  function Dictionary(keywords: seq<Word>): set<Word> {
    set k | k in keywords && k != []
  }

  method InsertAll(keywords: seq<Word>) returns (t: MapTrie, ghost path: map<int, Word>)
    ensures Growing(t, path, Dictionary(keywords), [])
  {
    t := MapTrie([NewNode(0)], Outputs([0], [OUT_NONE], [[]], [0]));
    path := map[0 := []];
    EmptyTrie(t, path);
    var i := 0;
    ghost var dict: set<Word> := {};
    while i < |keywords|
      invariant 0 <= i <= |keywords| && dict == Dictionary(keywords[..i])
      invariant Growing(t, path, dict, [])
    {
      assert keywords[..i + 1] == keywords[..i] + [keywords[i]];
      if keywords[i] != [] {
        t, path := Insert(t, keywords[i], path, dict);
        dict := dict + {keywords[i]};
      }
      i := i + 1;
    }
    assert keywords[..i] == keywords;
  }

  lemma EmptyTrie(t: MapTrie, path: map<int, Word>)
    requires t == MapTrie([NewNode(0)], Outputs([0], [OUT_NONE], [[]], [0])) && path == map[0 := []]
    ensures Growing(t, path, {}, [])
  {
    forall p ensures HasState(path, p) <==> IsPath({} + {[]}, p) {
      EmptyWordAddsNoPath({}, p);
      assert 0 in path && path[0] == [];
    }
    forall ch ensures EdgeOk({} + {[]}, path, 0, map[], ch) { EmptyWordAddsNoPath({}, [ch]); }
    assert GrowingNode(t, path, {}, [], 0);
  }

  // ----- failure and output links -----

  /** A node whose links are final. */
  ghost predicate LinkedNode(t: MapTrie, path: map<int, Word>, dict: set<Word>, s: int)
    requires Shaped(t, path) && s in path
  {
    FailOk(dict, path, s, t.nodes[s].fail) && LinkOk(dict, path, s, t.out.outLink[s])
  }

  /** What linking does not touch. */
  ghost predicate PlainNode(t: MapTrie, path: map<int, Word>, dict: set<Word>, s: int)
    requires Shaped(t, path) && s in path
  {
    EdgesOk(dict, path, s, t.nodes[s].Edges()) && OwnOk(dict, path, t.out, s) && t.nodes[s].depth == |path[s]|
  }

  ghost predicate Plain(t: MapTrie, path: map<int, Word>, dict: set<Word>) {
    && Shaped(t, path) && Numbering(dict, 0, path) && [] !in dict
    && (forall s {:trigger PlainNode(t, path, dict, s)} :: s in path ==> PlainNode(t, path, dict, s))
  }

  /** Every state no deeper than `depth` is linked. */
  ghost predicate LinkedTo(t: MapTrie, path: map<int, Word>, dict: set<Word>, depth: nat)
    requires Shaped(t, path)
  {
    forall s {:trigger LinkedNode(t, path, dict, s)} :: s in path && |path[s]| <= depth ==> LinkedNode(t, path, dict, s)
  }

  ghost predicate Linked(t: MapTrie, path: map<int, Word>, dict: set<Word>) {
    && Plain(t, path, dict)
    && (forall s {:trigger LinkedNode(t, path, dict, s)} :: s in path ==> LinkedNode(t, path, dict, s))
  }

  lemma LinkedTables(t: MapTrie, path: map<int, Word>, dict: set<Word>)
    requires Linked(t, path, dict)
    ensures TablesOk(dict, path, t.out)
  {
    forall s | s in path ensures StateOk(dict, path, t.out, s) {
      assert LinkedNode(t, path, dict, s) && PlainNode(t, path, dict, s);
    }
  }

  /** Walks failure links from `from` to the deepest state with a `ch` child and
      takes that edge: the state where `w + [ch]` lands, when `w` lands in `from`. */
  method FailWalk(t: MapTrie, from: int, ch: Rune, ghost w: Word, ghost path: map<int, Word>, ghost dict: set<Word>)
    returns (target: int)
    requires Plain(t, path, dict) && from in path && LinkedTo(t, path, dict, |path[from]|)
    requires Landing(dict, w + [ch]) == Landing(dict, path[from] + [ch])
    ensures target in path && path[target] == Landing(dict, w + [ch])
  {
    var fail := from;
    while fail != 0
      invariant fail in path && |path[fail]| <= |path[from]|
      invariant Landing(dict, w + [ch]) == Landing(dict, path[fail] + [ch])
      decreases |path[fail]|
    {
      assert PlainNode(t, path, dict, fail) && LinkedNode(t, path, dict, fail);
      assert EdgeOk(dict, path, fail, t.nodes[fail].Edges(), ch);
      if t.nodes[fail].Next(ch).1 { break; }
      assert path[fail] != [];
      FailStep(dict, path[fail], ch);
      fail := t.nodes[fail].fail;
    }
    assert PlainNode(t, path, dict, fail);
    assert EdgeOk(dict, path, fail, t.nodes[fail].Edges(), ch);
    var (next, ok) := t.nodes[fail].Next(ch);
    if ok {
      assert HasState(path, path[fail] + [ch]);
      target := next;
    } else {
      assert (path[fail] + [ch])[1..] == [];
      target := fail;
    }
  }

  /** The links of the `ch` child of `state`. */
  method ChildLinks(t: MapTrie, state: int, ch: Rune, child: int, ghost path: map<int, Word>, ghost dict: set<Word>)
    returns (fail: int, link: int)
    requires Plain(t, path, dict) && state in path && path[state] != [] && LinkedTo(t, path, dict, |path[state]|)
    requires child in path && path[child] == path[state] + [ch]
    ensures FailOk(dict, path, child, fail) && LinkOk(dict, path, child, link)
  {
    assert LinkedNode(t, path, dict, state);
    ghost var w := path[state][1..];
    LandingStep(dict, w, ch);
    assert path[child][1..] == w + [ch];
    fail := FailWalk(t, t.nodes[state].fail, ch, w, path, dict);
    assert LinkedNode(t, path, dict, fail) && PlainNode(t, path, dict, fail);
    LinkFromFail(dict, path, child, fail, t.out.outLink[fail]);
    link := if t.out.own[fail] != 0 then fail else t.out.outLink[fail];
  }

  function SetLinks(t: MapTrie, child: int, fail: int, link: int): MapTrie
    requires 0 <= child < |t.nodes| && child < |t.out.outLink|
  {
    MapTrie(t.nodes[child := t.nodes[child].(fail := fail)], t.out.(outLink := t.out.outLink[child := link]))
  }

  lemma LinksSet(t: MapTrie, path: map<int, Word>, dict: set<Word>, q: seq<int>, depth: nat,
                 child: int, fail: int, link: int)
    requires Plain(t, path, dict) && LinkedTo(t, path, dict, depth) && LinkedIn(t, path, dict, q)
    requires FailOk(dict, path, child, fail) && LinkOk(dict, path, child, link)
    ensures var t' := SetLinks(t, child, fail, link);
            Plain(t', path, dict) && LinkedTo(t', path, dict, depth) && LinkedIn(t', path, dict, q + [child])
  {
    var t' := SetLinks(t, child, fail, link);
    forall s | s in path ensures PlainNode(t', path, dict, s) {
      assert PlainNode(t, path, dict, s);
      SameButLinks(t, path, dict, child, fail, link, s);
    }
    forall s | s in path && |path[s]| <= depth ensures LinkedNode(t', path, dict, s) {
      assert LinkedNode(t, path, dict, s);
      StillLinked(t, path, dict, child, fail, link, s);
    }
    forall s | s in path && s in q + [child] ensures LinkedNode(t', path, dict, s) {
      assert s in q ==> LinkedNode(t, path, dict, s);
      StillLinked(t, path, dict, child, fail, link, s);
    }
  }

  lemma SameButLinks(t: MapTrie, path: map<int, Word>, dict: set<Word>, child: int, fail: int, link: int, s: int)
    requires Shaped(t, path) && child in path && s in path && PlainNode(t, path, dict, s)
    ensures var t' := SetLinks(t, child, fail, link);
            Shaped(t', path) && PlainNode(t', path, dict, s)
  {
  }

  lemma StillLinked(t: MapTrie, path: map<int, Word>, dict: set<Word>, child: int, fail: int, link: int, s: int)
    requires Shaped(t, path) && s in path && (s == child || LinkedNode(t, path, dict, s))
    requires FailOk(dict, path, child, fail) && LinkOk(dict, path, child, link)
    ensures var t' := SetLinks(t, child, fail, link);
            Shaped(t', path) && LinkedNode(t', path, dict, s)
  {
    assert child in path;
    hide FailOk, LinkOk;
    var t' := SetLinks(t, child, fail, link);
    assert t'.nodes[s].fail == if s == child then fail else t.nodes[s].fail;
    assert t'.out.outLink[s] == if s == child then link else t.out.outLink[s];
  }

  /** Every state of `q` is linked. */
  ghost predicate LinkedIn(t: MapTrie, path: map<int, Word>, dict: set<Word>, q: seq<int>)
    requires Shaped(t, path)
  {
    forall s {:trigger LinkedNode(t, path, dict, s)} :: s in path && s in q ==> LinkedNode(t, path, dict, s)
  }

  /** Sets every failure and output link.  `order` lists the states breadth-first, as
      they were visited; the root comes first. */
  method LinkAll(t: MapTrie, ghost path: map<int, Word>, ghost dict: set<Word>)
    returns (t': MapTrie, order: seq<int>)
    requires Growing(t, path, dict, []) && [] !in dict
    ensures Linked(t', path, dict)
    ensures Bfs(path, order, |order|, {})
  {
    Ready(t, path, dict);
    NumberingPrefixClosed(dict, 0, path);
    t' := t;
    order := EnqueueRootChildren(t, path, dict);
    var head := 1;
    while head < |order|
      invariant 1 <= head <= |order| && order[0] == 0 && Bfs(path, order, head, {})
      invariant Plain(t', path, dict) && LinkedIn(t', path, dict, order)
      decreases |path.Keys| - head
    {
      BfsBound(path, order, head, {});
      t', order := Visit(t', order, head, path, dict);
      head := head + 1;
    }
    forall s | s in path ensures LinkedNode(t', path, dict, s) {
      BfsComplete(path, order, s);
    }
  }

  method EnqueueRootChildren(t: MapTrie, ghost path: map<int, Word>, ghost dict: set<Word>) returns (order: seq<int>)
    requires Plain(t, path, dict) && LinkedTo(t, path, dict, 1) && Injective(path)
    ensures |order| > 0 && order[0] == 0 && Bfs(path, order, 1, {}) && LinkedIn(t, path, dict, order)
  {
    hide Bfs, Injective, LinkedTo, LinkedIn;
    order := [0];
    ghost var done: set<Rune> := {};
    BfsStart(path, 0);
    assert PlainNode(t, path, dict, 0);
    var edges := t.nodes[0].Edges();
    var todo := edges.Keys;
    while |todo| > 0
      invariant todo <= edges.Keys && done == edges.Keys - todo
      invariant |order| > 0 && order[0] == 0 && Bfs(path, order, 0, done)
      decreases |todo|
    {
      SomeRune(todo);
      var ch :| ch in todo;
      assert EdgeOk(dict, path, 0, edges, ch);
      BfsVisit(path, order, 0, done, ch, edges[ch]);
      order := order + [edges[ch]];
      todo, done := todo - {ch}, done + {ch};
    }
    ChildrenDone(t, path, dict, order, 0, done);
    assert Bfs(path, order, 0, done);
    RootQueueLinked(t, path, dict, order, done);
  }

  lemma RootQueueLinked(t: MapTrie, path: map<int, Word>, dict: set<Word>, order: seq<int>, done: set<Rune>)
    requires Plain(t, path, dict) && LinkedTo(t, path, dict, 1)
    requires |order| > 0 && order[0] == 0 && Bfs(path, order, 0, done)
    ensures LinkedIn(t, path, dict, order)
  {
    forall s | s in path && s in order ensures LinkedNode(t, path, dict, s) {
      var i :| 0 <= i < |order| && order[i] == s;
      assert |path[order[i]]| <= |path[order[0]]| + 1;
    }
  }

  lemma HeadIsPlain(t: MapTrie, path: map<int, Word>, dict: set<Word>, order: seq<int>, head: nat)
    requires Plain(t, path, dict) && Bfs(path, order, head, {}) && 0 < head < |order| && order[0] == 0
    ensures order[head] in path && path[order[head]] != [] && PlainNode(t, path, dict, order[head])
  {
    assert order[0] != order[head];
  }

  /** Links the children of the state at the head of the queue and enqueues them. */
  method Visit(t: MapTrie, order: seq<int>, head: nat, ghost path: map<int, Word>, ghost dict: set<Word>)
    returns (t': MapTrie, order': seq<int>)
    requires Plain(t, path, dict) && PrefixClosed(path) && Injective(path)
    requires 0 < head < |order| && order[0] == 0 && Bfs(path, order, head, {}) && LinkedIn(t, path, dict, order)
    ensures Plain(t', path, dict) && Bfs(path, order', head + 1, {}) && LinkedIn(t', path, dict, order')
    ensures order <= order'
  {
    hide Bfs, LinkedIn, LinkedTo, PrefixClosed, Injective, Numbering, LinkedNode, FailOk, LinkOk;
    var state := order[head];
    HeadIsPlain(t, path, dict, order, head);
    ShallowLinked(t, path, dict, order, head);
    t', order' := t, order;
    ghost var done: set<Rune> := {};
    var edges := t.nodes[state].Edges();
    var todo := edges.Keys;
    while |todo| > 0
      invariant todo <= edges.Keys && done == edges.Keys - todo
      invariant order <= order' && Bfs(path, order', head, done)
      invariant Plain(t', path, dict) && LinkedTo(t', path, dict, |path[state]|) && LinkedIn(t', path, dict, order')
      invariant t'.nodes[state].Edges() == edges
      decreases |todo|
    {
      SomeRune(todo);
      var ch :| ch in todo;
      var child := edges[ch];
      assert EdgeOk(dict, path, state, edges, ch);
      BfsVisit(path, order', head, done, ch, child);
      var fail, link := ChildLinks(t', state, ch, child, path, dict);
      LinksSet(t', path, dict, order', |path[state]|, child, fail, link);
      t' := SetLinks(t', child, fail, link);
      order' := order' + [child];
      todo, done := todo - {ch}, done + {ch};
    }
    ChildrenDone(t', path, dict, order', head, done);
  }

  lemma ChildrenDone(t: MapTrie, path: map<int, Word>, dict: set<Word>, q: seq<int>, head: nat, done: set<Rune>)
    requires Plain(t, path, dict) && head < |q| && Bfs(path, q, head, done)
    requires done == t.nodes[q[head]].Edges().Keys
    ensures Bfs(path, q, head + 1, {})
  {
    assert PlainNode(t, path, dict, q[head]);
    forall ch | HasState(path, path[q[head]] + [ch]) ensures ch in done {
      assert EdgeOk(dict, path, q[head], t.nodes[q[head]].Edges(), ch);
    }
    BfsNext(path, q, head, done);
  }

  lemma ShallowLinked(t: MapTrie, path: map<int, Word>, dict: set<Word>, q: seq<int>, head: nat)
    requires Shaped(t, path) && PrefixClosed(path) && head < |q| && Bfs(path, q, head, {})
    requires LinkedIn(t, path, dict, q)
    ensures LinkedTo(t, path, dict, |path[q[head]]|)
  {
    forall s | s in path && |path[s]| <= |path[q[head]]| ensures LinkedNode(t, path, dict, s) {
      var i := BfsShallow(path, q, head, {}, s);
    }
  }

  /** Freshly inserted nodes are plain, and their default links are right for the
      root and its children. */
  lemma Ready(t: MapTrie, path: map<int, Word>, dict: set<Word>)
    requires Growing(t, path, dict, []) && [] !in dict
    ensures Plain(t, path, dict) && LinkedTo(t, path, dict, 1)
  {
    forall q ensures IsPath(dict + {[]}, q) <==> IsPath(dict, q) { EmptyWordAddsNoPath(dict, q); }
    SamePaths(dict + {[]}, dict, 0, path);
    forall s | s in path ensures PlainNode(t, path, dict, s) { assert GrowingNode(t, path, dict, [], s); }
    forall s | s in path && |path[s]| <= 1 ensures LinkedNode(t, path, dict, s) {
      assert GrowingNode(t, path, dict, [], s);
      assert Rest(path[s]) == [];
    }
  }
}
