/** The composite's rune-by-rune scans: contains, and the stream that merges the
    shards' matches at each rune through a heap (internal/engine/engine_composite.go). */
module CompositeStream {
  import opened Matching
  import opened Automaton
  import opened OutputTables
  import opened Engines
  import opened Composite
  import Heaps

  // ----- output cursors -----

  /** A position in a shard's output chain. */
  datatype OutputCursor = OutputCursor(out: Outputs, state: int)

  ghost predicate Live(c: OutputCursor, dict: set<Word>, path: map<int, Word>) {
    c.state == OUT_NONE || (c.state in path && TablesOk(dict, path, c.out))
  }

  /** The keywords still to come from a cursor, longest first. */
  ghost function Left(c: OutputCursor, dict: set<Word>, path: map<int, Word>): seq<Word>
    requires Live(c, dict, path)
  {
    if c.state == OUT_NONE then [] else KeywordSuffixes(dict, path[c.state])
  }

  function Span(k: Word, end: int): Match { Match(k, end - |k|, end) }

  /** Takes the next keyword off the chain, passing over states without one. */
  method NextMatch(c: OutputCursor, end: nat, ghost dict: set<Word>, ghost path: map<int, Word>)
    returns (rest: OutputCursor, m: Match, ok: bool)
    requires Live(c, dict, path)
    ensures Live(rest, dict, path) && (ok <==> Left(c, dict, path) != [])
    ensures ok ==> m == Span(Left(c, dict, path)[0], end) && Left(rest, dict, path) == Left(c, dict, path)[1..]
    ensures !ok ==> Left(rest, dict, path) == []
  {
    hide KeywordSuffixes, TablesOk;
    rest := c;
    while rest.state != OUT_NONE
      invariant rest.out == c.out && Live(rest, dict, path) && Left(rest, dict, path) == Left(c, dict, path)
      decreases if rest.state != OUT_NONE && rest.state in path then |path[rest.state]| + 1 else 0
    {
      ChainUnfold(dict, path, c.out, rest.state);
      var id := rest.out.own[rest.state];
      rest := rest.(state := rest.out.outLink[rest.state]);
      if id != 0 { return rest, Match(rest.out.keywords[id], end - rest.out.runeLens[id], end), true; }
    }
    return rest, Match([], 0, 0), false;
  }

  // ----- merging the shards at one rune -----

  datatype Head = Head(m: Match, shard: nat)

  function HeadStart(h: Head): int { h.m.start }

  ghost predicate LongestFirst(ks: seq<Word>) {
    forall i, j :: 0 <= i < j < |ks| ==> |ks[i]| > |ks[j]|
  }

  /** `left[i]` is what shard `i` still has of the pending keywords `todo`. */
  ghost predicate Merging(dicts: seq<set<Word>>, left: seq<seq<Word>>, todo: seq<Word>) {
    && |left| == |dicts| && LongestFirst(todo)
    && (forall k :: k in todo ==> InSome(dicts, k))
    && (forall i, j, k :: 0 <= i < j < |dicts| && k in dicts[i] ==> k !in dicts[j])
    && (forall i :: 0 <= i < |left| ==> ShardLeft(dicts[i], left[i], todo))
  }

  ghost predicate ShardLeft(dict: set<Word>, ks: seq<Word>, todo: seq<Word>) {
    LongestFirst(ks) && forall k :: k in ks <==> k in dict && k in todo
  }

  /** The next keyword of each of the first `n` shards that has one. */
  ghost function Heads(left: seq<seq<Word>>, end: int, n: nat): seq<Head>
    requires n <= |left|
  {
    if n == 0 then [] else Heads(left, end, n - 1) + HeadOf(left[n - 1], end, n - 1)
  }

  lemma HeadsAt(left: seq<seq<Word>>, end: int, n: nat)
    requires n <= |left|
    ensures Heads(left, end, n) == if n == 0 then [] else Heads(left, end, n - 1) + HeadOf(left[n - 1], end, n - 1)
  {
  }

  ghost function HeadOf(ks: seq<Word>, end: int, shard: nat): seq<Head> {
    if ks == [] then [] else [Head(Span(ks[0], end), shard)]
  }

  lemma {:induction false} HeadsMember(left: seq<seq<Word>>, end: int, n: nat, h: Head)
    requires n <= |left|
    ensures h in Heads(left, end, n) <==> h.shard < n && left[h.shard] != [] && h.m == Span(left[h.shard][0], end)
  {
    if n > 0 { HeadsMember(left, end, n - 1, h); }
  }

  lemma {:induction false} HeadsSame(left: seq<seq<Word>>, end: int, n: nat, s: nat, ks: seq<Word>)
    requires n <= s < |left|
    ensures Heads(left[s := ks], end, n) == Heads(left, end, n)
  {
    if n > 0 { HeadsSame(left, end, n - 1, s, ks); }
  }

  lemma {:induction false} HeadsUpdate(left: seq<seq<Word>>, end: int, n: nat, s: nat, ks: seq<Word>)
    requires s < n <= |left|
    ensures multiset(Heads(left[s := ks], end, n)) + multiset(HeadOf(left[s], end, s)) ==
              multiset(Heads(left, end, n)) + multiset(HeadOf(ks, end, s))
  {
    hide HeadOf;
    var was, now := Heads(left, end, n - 1), Heads(left[s := ks], end, n - 1);
    if s == n - 1 {
      HeadsSame(left, end, n - 1, s, ks);
    } else {
      HeadsUpdate(left, end, n - 1, s, ks);
      var h := HeadOf(left[n - 1], end, n - 1);
      assert multiset(was + h) == multiset(was) + multiset(h) && multiset(now + h) == multiset(now) + multiset(h);
      Regroup(multiset(now), multiset(HeadOf(left[s], end, s)), multiset(was), multiset(HeadOf(ks, end, s)), multiset(h));
    }
  }

  lemma Regroup(a: multiset<Head>, b: multiset<Head>, c: multiset<Head>, d: multiset<Head>, h: multiset<Head>)
    requires a + b == c + d
    ensures (a + h) + b == (c + h) + d
  {
    assert (a + h) + b == (a + b) + h;
  }

  /** The least head is the first of all pending keywords. */
  lemma LeastHead(dicts: seq<set<Word>>, left: seq<seq<Word>>, todo: seq<Word>, end: int, h: Head)
    requires Merging(dicts, left, todo) && h in Heads(left, end, |left|)
    requires forall x :: x in Heads(left, end, |left|) ==> HeadStart(h) <= HeadStart(x)
    ensures todo != [] && h.shard < |left| && left[h.shard] != [] && left[h.shard][0] == todo[0] && h.m == Span(todo[0], end)
  {
    HeadsMember(left, end, |left|, h);
    var k := left[h.shard][0];
    assert ShardLeft(dicts[h.shard], left[h.shard], todo) && k in left[h.shard];
    assert k in todo;
    var first := todo[0];
    assert first in todo && InSome(dicts, first);
    var i :| 0 <= i < |dicts| && first in dicts[i];
    assert ShardLeft(dicts[i], left[i], todo) && first in left[i];
    var x := Head(Span(left[i][0], end), i);
    HeadsMember(left, end, |left|, x);
    assert |k| >= |left[i][0]| >= |first|;
  }

  /** Without heads nothing is pending. */
  lemma NoHeads(dicts: seq<set<Word>>, left: seq<seq<Word>>, todo: seq<Word>, end: int)
    requires Merging(dicts, left, todo) && Heads(left, end, |left|) == []
    ensures todo == []
  {
    if todo != [] {
      var first := todo[0];
      assert first in todo && InSome(dicts, first);
      var i :| 0 <= i < |dicts| && first in dicts[i];
      assert ShardLeft(dicts[i], left[i], todo) && first in left[i];
      HeadsMember(left, end, |left|, Head(Span(left[i][0], end), i));
    }
  }

  /** Taking the first pending keyword off its shard. */
  lemma TakeHead(dicts: seq<set<Word>>, left: seq<seq<Word>>, todo: seq<Word>, s: nat)
    requires Merging(dicts, left, todo) && todo != [] && s < |left| && left[s] != [] && left[s][0] == todo[0]
    ensures Merging(dicts, left[s := left[s][1..]], todo[1..])
  {
    var k := todo[0];
    assert ShardLeft(dicts[s], left[s], todo) && k in left[s] && k in dicts[s];
    NotLater(todo);
    NotLater(left[s]);
    var now := left[s := left[s][1..]];
    forall i | 0 <= i < |now| ensures ShardLeft(dicts[i], now[i], todo[1..]) {
      assert ShardLeft(dicts[i], left[i], todo);
      assert i != s ==> k !in dicts[i];
    }
  }

  lemma NotLater(ks: seq<Word>)
    requires LongestFirst(ks) && ks != []
    ensures LongestFirst(ks[1..]) && forall k :: k in ks[1..] <==> k in ks && k != ks[0]
  {
  }

  /** The merge starts from each shard's own outputs. */
  lemma MergeStart(dicts: seq<set<Word>>, dict: set<Word>, left: seq<seq<Word>>, here: Word)
    requires Splits(dicts, dict) && |left| == |dicts|
    requires forall i :: 0 <= i < |left| ==> left[i] == KeywordSuffixes(dicts[i], here)
    ensures Merging(dicts, left, KeywordSuffixes(dict, here))
  {
    var todo := KeywordSuffixes(dict, here);
    KeywordSuffixesDecreasing(dict, here);
    forall k ensures k in todo <==> k != [] && k in dict && IsSuffix(k, here) { KeywordSuffixesExact(dict, here, k); }
    forall i | 0 <= i < |left| ensures ShardLeft(dicts[i], left[i], todo) {
      KeywordSuffixesDecreasing(dicts[i], here);
      forall k ensures k in left[i] <==> k in dicts[i] && k in todo {
        KeywordSuffixesExact(dicts[i], here, k);
        if k in dicts[i] { assert InSome(dicts, k); }
      }
    }
  }

  // ----- cursors of all shards -----

  ghost predicate AllLive(cs: seq<OutputCursor>, dicts: seq<set<Word>>, paths: seq<map<int, Word>>) {
    |cs| == |dicts| == |paths| && forall i :: 0 <= i < |cs| ==> Live(cs[i], dicts[i], paths[i])
  }

  ghost function Lefts(cs: seq<OutputCursor>, dicts: seq<set<Word>>, paths: seq<map<int, Word>>): seq<seq<Word>>
    requires AllLive(cs, dicts, paths)
  {
    seq(|cs|, i requires 0 <= i < |cs| => Left(cs[i], dicts[i], paths[i]))
  }

  /** A head is out of its cursor and in the queue; the cursors hold the rest. */
  ghost predicate Split(left: seq<seq<Word>>, rest: seq<seq<Word>>) {
    |left| == |rest| && forall i :: 0 <= i < |left| ==> rest[i] == if left[i] == [] then [] else left[i][1..]
  }

  /** Takes the first match of every shard. */
  method FirstHeads(cursors: seq<OutputCursor>, end: nat, ghost dicts: seq<set<Word>>, ghost paths: seq<map<int, Word>>)
    returns (queue: seq<Head>, rest: seq<OutputCursor>)
    requires AllLive(cursors, dicts, paths)
    ensures AllLive(rest, dicts, paths) && Split(Lefts(cursors, dicts, paths), Lefts(rest, dicts, paths))
    ensures queue == Heads(Lefts(cursors, dicts, paths), end, |cursors|)
  {
    hide Left, Live, Heads;
    ghost var left := Lefts(cursors, dicts, paths);
    queue, rest := [], cursors;
    HeadsAt(left, end, 0);
    for i := 0 to |cursors|
      invariant AllLive(rest, dicts, paths) && queue == Heads(left, end, i)
      invariant forall j :: 0 <= j < i ==> Left(rest[j], dicts[j], paths[j]) == if left[j] == [] then [] else left[j][1..]
      invariant forall j :: i <= j < |cursors| ==> rest[j] == cursors[j]
    {
      var c, m, ok := NextMatch(rest[i], end, dicts[i], paths[i]);
      assert left[i] == Left(cursors[i], dicts[i], paths[i]);
      rest := rest[i := c];
      HeadsAt(left, end, i + 1);
      if ok { queue := queue + [Head(m, i)]; }
    }
  }

  /** Emits the pending matches of all shards in scan order; `more` is false when the
      callback asked to stop. */
  method EmitQueue(q: seq<Head>, cursors: seq<OutputCursor>, end: nat, sent: seq<Match>, accept: seq<Match> -> bool,
                   ghost dicts: seq<set<Word>>, ghost paths: seq<map<int, Word>>, ghost all: seq<seq<Word>>, ghost pending: seq<Word>)
    returns (r: seq<Match>, more: bool)
    requires AllLive(cursors, dicts, paths) && Split(all, Lefts(cursors, dicts, paths))
    requires q == Heads(all, end, |all|) && Merging(dicts, all, pending)
    ensures r == DeliveredFrom(sent, Spans(pending, end), accept)
    ensures more == !Stops(sent, Spans(pending, end), accept)
  {
    hide Left, Live, Merging, Heads, DeliveredFrom, Stops, Spans, Heaps.Heap;
    r := sent;
    var queue := Heaps.Init(q, HeadStart);
    var cs := cursors;
    ghost var left, todo := all, pending;
    while |queue| != 0
      invariant AllLive(cs, dicts, paths) && Split(left, Lefts(cs, dicts, paths)) && Merging(dicts, left, todo)
      invariant multiset(queue) == multiset(Heads(left, end, |left|)) && Heaps.Heap(queue, HeadStart)
      invariant DeliveredFrom(r, Spans(todo, end), accept) == DeliveredFrom(sent, Spans(pending, end), accept)
      invariant Stops(r, Spans(todo, end), accept) == Stops(sent, Spans(pending, end), accept)
      decreases |todo|
    {
      var head := queue[0];
      LeastFirst(dicts, left, todo, end, queue);
      EmitNext(r, todo, end, accept);
      r := r + [head.m];
      if !accept(r) { return r, false; }
      var s := head.shard;
      TakeHead(dicts, left, todo, s);
      HeadsUpdate(left, end, |left|, s, left[s][1..]);
      ghost var lefts := Lefts(cs, dicts, paths);
      assert lefts[s] == left[s][1..];
      var c, m, ok := NextMatch(cs[s], end, dicts[s], paths[s]);
      Advanced(left, lefts, s, Left(c, dicts[s], paths[s]));
      cs := cs[s := c];
      assert Lefts(cs, dicts, paths) == lefts[s := Left(c, dicts[s], paths[s])];
      assert HeadOf(left[s], end, s) == [head];
      if ok {
        assert HeadOf(left[s][1..], end, s) == [head.(m := m)];
        Swapped(queue, head.(m := m));
        queue := Heaps.Replace(queue, HeadStart, head.(m := m));
      } else {
        assert HeadOf(left[s][1..], end, s) == [];
        queue := Heaps.Pop(queue, HeadStart);
      }
      Cancel(multiset(queue), multiset(Heads(left[s := left[s][1..]], end, |left|)), head);
      left, todo := left[s := left[s][1..]], todo[1..];
    }
    Emptied(queue, Heads(left, end, |left|));
    NoHeads(dicts, left, todo, end);
    NothingLeft(r, end, accept);
    more := true;
  }

  lemma Swapped(q: seq<Head>, h: Head)
    requires q != []
    ensures multiset(q[0 := h]) + multiset{q[0]} == multiset(q) + multiset{h}
  {
  }

  lemma Emptied(q: seq<Head>, hs: seq<Head>)
    requires multiset(q) == multiset(hs)
    ensures q == [] ==> hs == []
  {
    assert |q| == |multiset(q)| && |hs| == |multiset(hs)|;
  }

  lemma Cancel(a: multiset<Head>, b: multiset<Head>, h: Head)
    requires a + multiset{h} == b + multiset{h}
    ensures a == b
  {
    assert a == (a + multiset{h}) - multiset{h} && b == (b + multiset{h}) - multiset{h};
  }

  lemma Advanced(left: seq<seq<Word>>, rest: seq<seq<Word>>, s: nat, ks: seq<Word>)
    requires Split(left, rest) && s < |left|
    requires ks == if rest[s] == [] then [] else rest[s][1..]
    ensures Split(left[s := rest[s]], rest[s := ks])
  {
  }

  lemma LeastFirst(dicts: seq<set<Word>>, left: seq<seq<Word>>, todo: seq<Word>, end: int, q: seq<Head>)
    requires Merging(dicts, left, todo) && q != [] && Heaps.Heap(q, HeadStart) && multiset(q) == multiset(Heads(left, end, |left|))
    ensures var h := q[0];
            todo != [] && h.shard < |left| && left[h.shard] != [] && left[h.shard][0] == todo[0] && h.m == Span(todo[0], end)
  {
    hide Heads, Heaps.Heap;
    var hs := Heads(left, end, |left|);
    forall x ensures x in q <==> x in hs { assert x in multiset(q) <==> x in multiset(hs); }
    forall x | x in hs ensures HeadStart(q[0]) <= HeadStart(x) {
      var i :| 0 <= i < |q| && q[i] == x;
      Heaps.RootIsLeast(q, HeadStart, i);
    }
    assert q[0] in q;
    LeastHead(dicts, left, todo, end, q[0]);
  }

  lemma EmitNext(sent: seq<Match>, todo: seq<Word>, end: nat, accept: seq<Match> -> bool)
    ensures todo != [] ==>
              var r := sent + [Span(todo[0], end)];
              && DeliveredFrom(sent, Spans(todo, end), accept) == (if accept(r) then DeliveredFrom(r, Spans(todo[1..], end), accept) else r)
              && (Stops(sent, Spans(todo, end), accept) <==> !accept(r) || Stops(r, Spans(todo[1..], end), accept))
  {
    if todo != [] { DeliveredCons(sent, Span(todo[0], end), Spans(todo[1..], end), accept); }
  }

  lemma NothingLeft(sent: seq<Match>, end: nat, accept: seq<Match> -> bool)
    ensures DeliveredFrom(sent, Spans([], end), accept) == sent && !Stops(sent, Spans([], end), accept)
  {
  }

  // ----- advancing every shard by one rune -----

  ghost function Paths(e: CompositeEngine): seq<map<int, Word>> {
    seq(|e.shards|, i requires 0 <= i < |e.shards| => e.shards[i].path)
  }

  /** Shard `i` has read `w`. */
  ghost predicate HasRead(e: Engine, state: int, w: Word) {
    state in e.path && e.path[state] == Landing(e.dict, w)
  }

  ghost predicate AllRead(e: CompositeEngine, states: seq<int>, w: Word) {
    |states| == |e.shards| && forall i :: 0 <= i < |states| ==> HasRead(e.shards[i], states[i], w)
  }

  method Roots(e: CompositeEngine) returns (states: seq<int>)
    requires e.Valid()
    ensures AllRead(e, states, [])
  {
    states := seq(|e.shards|, i requires 0 <= i < |e.shards| => e.shards[i].root);
    forall i | 0 <= i < |states| ensures HasRead(e.shards[i], states[i], []) { e.shards[i].OutOk(); }
  }

  /** The cursor stands on a state with a keyword of its own or further along. */
  predicate Carries(c: OutputCursor) {
    0 <= c.state < |c.out.own| && c.state < |c.out.outLink| &&
    (c.out.own[c.state] != 0 || c.out.outLink[c.state] != OUT_NONE)
  }

  /** One rune in one shard; no cursor output means no keyword ends here. */
  method AdvanceShard(e: Engine, state: int, ch: Rune, ghost w: Word) returns (next: int, c: OutputCursor)
    requires e.Valid() && HasRead(e, state, w)
    ensures HasRead(e, next, w + [ch])
    ensures Live(c, e.dict, e.path) && Left(c, e.dict, e.path) == KeywordSuffixes(e.dict, w + [ch])
    ensures Carries(c) <==> KeywordSuffixes(e.dict, w + [ch]) != []
  {
    hide Engine.Valid, KeywordSuffixes, Landing, TablesOk;
    var out;
    next, out := e.Step(state, ch, w);
    e.OutOk();
    LandingKeepsOutputs(e.dict, w + [ch]);
    CarriesKeyword(e.dict, e.path, e.Out(), next);
    c := OutputCursor(e.Out(), if out then next else OUT_NONE);
  }

  method AdvanceAll(e: CompositeEngine, states: seq<int>, ch: Rune, ghost w: Word)
    returns (next: seq<int>, cursors: seq<OutputCursor>)
    requires e.Valid() && AllRead(e, states, w)
    ensures AllRead(e, next, w + [ch]) && AllLive(cursors, e.Dicts(), Paths(e))
    ensures forall i :: 0 <= i < |cursors| ==> Lefts(cursors, e.Dicts(), Paths(e))[i] == KeywordSuffixes(e.Dicts()[i], w + [ch])
  {
    hide Engine.Valid, HasRead, Live, Left, Splits, KeywordSuffixes;
    next, cursors := [], [];
    for n := 0 to |states|
      invariant |next| == |cursors| == n
      invariant forall i :: 0 <= i < n ==> HasRead(e.shards[i], next[i], w + [ch])
      invariant forall i :: 0 <= i < n ==> Live(cursors[i], e.shards[i].dict, e.shards[i].path)
      invariant forall i :: 0 <= i < n ==> Left(cursors[i], e.shards[i].dict, e.shards[i].path) == KeywordSuffixes(e.shards[i].dict, w + [ch])
    {
      var s, c := AdvanceShard(e.shards[n], states[n], ch, w);
      next, cursors := next + [s], cursors + [c];
    }
  }

  // ----- contains -----

  /** Advances all shards together and stops at the first position where any of them
      has a match; `read` is the number of runes consumed. */
  method Contains(e: CompositeEngine, text: Word) returns (found: bool, read: nat)
    requires e.Valid()
    ensures found <==> Occurring(e.dict, text)
    ensures read <= |text| && (found ==> read > 0 && AllMatches(e.dict, text[..read - 1]) == [] && MatchesAtEnd(e.dict, text[..read]) != [])
    ensures !found ==> read == |text| || |e.shards| == 0
  {
    hide CompositeEngine.Valid, AllRead, IsOccurrence, AllMatches, MatchesAtEnd, KeywordSuffixes;
    found, read := false, 0;
    if |e.shards| == 0 || text == [] {
      if |e.shards| == 0 { NoShards(e, text); }
      NoMatches(e.dict);
      NoOccurrence(e.dict, text);
      return;
    }
    var states := Roots(e);
    assert text[..0] == [];
    NoMatches(e.dict);
    while read < |text|
      invariant read <= |text| && AllRead(e, states, text[..read]) && AllMatches(e.dict, text[..read]) == []
    {
      var here := text[..read + 1];
      assert here == text[..read] + [text[read]];
      states, found := AnyOutput(e, states, text[read], text[..read]);
      read := read + 1;
      OneMore(e.dict, text, read);
      if found { return; }
    }
    assert text[..read] == text;
    NoOccurrence(e.dict, text);
  }

  /** Whether some shard has a keyword ending at this rune; later shards are not
      advanced once one has. */
  method AnyOutput(e: CompositeEngine, states: seq<int>, ch: Rune, ghost w: Word) returns (next: seq<int>, found: bool)
    requires e.Valid() && AllRead(e, states, w)
    ensures found <==> KeywordSuffixes(e.dict, w + [ch]) != []
    ensures !found ==> AllRead(e, next, w + [ch])
  {
    hide Engine.Valid, HasRead, Live, Left, Splits, KeywordSuffixes;
    next, found := [], false;
    for n := 0 to |states|
      invariant |next| == n
      invariant forall i :: 0 <= i < n ==> HasRead(e.shards[i], next[i], w + [ch])
      invariant forall i :: 0 <= i < n ==> KeywordSuffixes(e.Dicts()[i], w + [ch]) == []
    {
      var s, c := AdvanceShard(e.shards[n], states[n], ch, w);
      next := next + [s];
      if Carries(c) {
        ShardSuffixes(e.Dicts(), e.dict, w + [ch], n);
        return next, true;
      }
    }
    NoShardSuffixes(e.Dicts(), e.dict, w + [ch]);
  }

  lemma ShardSuffixes(dicts: seq<set<Word>>, dict: set<Word>, w: Word, i: nat)
    requires Splits(dicts, dict) && i < |dicts| && KeywordSuffixes(dicts[i], w) != []
    ensures KeywordSuffixes(dict, w) != []
  {
    var k := KeywordSuffixes(dicts[i], w)[0];
    KeywordSuffixesExact(dicts[i], w, k);
    assert InSome(dicts, k);
    KeywordSuffixesExact(dict, w, k);
  }

  lemma NoShardSuffixes(dicts: seq<set<Word>>, dict: set<Word>, w: Word)
    requires Splits(dicts, dict) && forall i :: 0 <= i < |dicts| ==> KeywordSuffixes(dicts[i], w) == []
    ensures KeywordSuffixes(dict, w) == []
  {
    if KeywordSuffixes(dict, w) != [] {
      var k := KeywordSuffixes(dict, w)[0];
      KeywordSuffixesExact(dict, w, k);
      var i := ShardOf(dicts, dict, k);
      KeywordSuffixesExact(dicts[i], w, k);
    }
  }

  // ----- the stream -----

  /** Reads runes one at a time and emits the matches ending at each before reading
      the next; `before[i]` is the number of matches already sent when rune `i` was
      read. */
  method MatchStream(e: CompositeEngine, text: Word, accept: seq<Match> -> bool)
    returns (sent: seq<Match>, before: seq<nat>)
    requires e.Valid()
    ensures |e.shards| != 0 ==> sent == Delivered(AllMatches(e.dict, text), accept)
    ensures |e.shards| == 0 ==> sent == AllMatches(e.dict, text) == []
    ensures |before| <= |text| && forall i :: 0 <= i < |before| ==> before[i] == |AllMatches(e.dict, text[..i])|
    ensures |before| < |text| && |e.shards| != 0 ==> sent != [] && sent[|sent| - 1].end == |before|
  {
    hide CompositeEngine.Valid, AllRead, DeliveredFrom, Stops, AllMatches, Landing, KeywordSuffixes, Spans, KeywordList, Splits;
    sent, before := [], [];
    if |e.shards| == 0 {
      NoShards(e, text);
      return;
    }
    var states := Roots(e);
    assert text[..0] == [];
    ScanStart(e.dict, text, accept);
    while |before| < |text|
      invariant |before| <= |text| && AllRead(e, states, text[..|before|])
      invariant sent == DeliveredFrom([], AllMatches(e.dict, text[..|before|]), accept) == AllMatches(e.dict, text[..|before|])
      invariant !Stops([], AllMatches(e.dict, text[..|before|]), accept)
      invariant forall i :: 0 <= i < |before| ==> before[i] == |AllMatches(e.dict, text[..i])|
    {
      var i := |before|;
      before := before + [|sent|];
      ScanStep(e.dict, text, i);
      EmitMore(e.dict, text, i, accept);
      LandingKeepsOutputs(e.dict, text[..i + 1]);
      var cursors;
      states, cursors := AdvanceAll(e, states, text[i], text[..i]);
      var more;
      sent, more := EmitAll(e, cursors, |before|, sent, accept, text[..i + 1]);
      if !more {
        return;
      }
    }
    assert text[..|before|] == text;
  }

  lemma NoShards(e: CompositeEngine, text: Word)
    requires e.Valid() && |e.shards| == 0
    ensures AllMatches(e.dict, text) == []
  {
    assert forall k :: !InSome(e.Dicts(), k);
    if AllMatches(e.dict, text) != [] { AllMatchesExact(e.dict, text, AllMatches(e.dict, text)[0]); }
  }

  method EmitAll(e: CompositeEngine, cursors: seq<OutputCursor>, end: nat, sent: seq<Match>, accept: seq<Match> -> bool, ghost here: Word)
    returns (r: seq<Match>, more: bool)
    requires e.Valid() && AllLive(cursors, e.Dicts(), Paths(e))
    requires forall i :: 0 <= i < |cursors| ==> Lefts(cursors, e.Dicts(), Paths(e))[i] == KeywordSuffixes(e.Dicts()[i], here)
    ensures r == DeliveredFrom(sent, Spans(KeywordSuffixes(e.dict, here), end), accept)
    ensures more == !Stops(sent, Spans(KeywordSuffixes(e.dict, here), end), accept)
    ensures !more ==> r != [] && r[|r| - 1].end == end
  {
    hide Live, Left, KeywordSuffixes, Splits, DeliveredFrom, Stops, Spans, Merging, Heads, Engine.Valid;
    ghost var left := Lefts(cursors, e.Dicts(), Paths(e));
    MergeStart(e.Dicts(), e.dict, left, here);
    var queue, rest := FirstHeads(cursors, end, e.Dicts(), Paths(e));
    r, more := EmitQueue(queue, rest, end, sent, accept, e.Dicts(), Paths(e), left, KeywordSuffixes(e.dict, here));
    StoppedAt(sent, KeywordSuffixes(e.dict, here), end, accept);
  }

  lemma {:induction false} StoppedAt(sent: seq<Match>, ks: seq<Word>, end: nat, accept: seq<Match> -> bool)
    ensures Stops(sent, Spans(ks, end), accept) ==>
              var r := DeliveredFrom(sent, Spans(ks, end), accept);
              r != [] && r[|r| - 1].end == end
    decreases |ks|
  {
    if ks != [] {
      EmitNext(sent, ks, end, accept);
      StoppedAt(sent + [Span(ks[0], end)], ks[1..], end, accept);
    }
  }
}
