/** The output tables shared by every engine, and the set collector behind FindSet
    (internal/engine/engine_output.go). */
module OutputTables {
  import opened Matching
  import opened Automaton
  import Bits

  const OUT_NONE := -1

  /** `own[s]` is the id of the keyword ending at `s` (0 for none); `outLink[s]` is
      the next keyword-carrying state on the failure path (OUT_NONE at the end). */
  datatype Outputs = Outputs(own: seq<int>, outLink: seq<int>, keywords: seq<Word>, runeLens: seq<int>)
  {
    /** Interns `kw` for a terminal state currently holding id `cur`. */
    function Assign(cur: int, kw: Word): (r: (Outputs, int))
      requires 0 <= cur && |keywords| == |runeLens|
      requires cur == 0 || cur < |keywords|
      ensures |r.0.keywords| == |r.0.runeLens| >= |keywords|
      ensures 0 < r.1 < |r.0.keywords| && r.0.keywords[r.1] == kw && r.0.runeLens[r.1] == |kw|
      ensures r.0.own == own && r.0.outLink == outLink
      ensures forall i :: 0 < i < |keywords| && i != r.1 ==>
                r.0.keywords[i] == keywords[i] && r.0.runeLens[i] == runeLens[i]
      ensures cur != 0 ==> r.1 == cur
      ensures cur == 0 ==> r.1 >= |keywords|
    {
      if cur != 0 then
        (this.(keywords := keywords[cur := kw], runeLens := runeLens[cur := |kw|]), cur)
      else AssignID(kw)
    }

    /** Interns `kw` under a new id; id 0 is the "no keyword" sentinel. */
    function AssignID(kw: Word): (r: (Outputs, int))
      requires |keywords| == |runeLens|
      ensures |r.0.keywords| == |r.0.runeLens| > |keywords|
      ensures |keywords| <= r.1 && 0 < r.1 < |r.0.keywords| && r.0.keywords[r.1] == kw && r.0.runeLens[r.1] == |kw|
      ensures r.0.own == own && r.0.outLink == outLink
      ensures keywords <= r.0.keywords && runeLens <= r.0.runeLens
    {
      var ks := if keywords == [] then [[]] else keywords;
      var ls := if keywords == [] then [0] else runeLens;
      (this.(keywords := ks + [kw], runeLens := ls + [|kw|]), |ks|)
    }
  }

  // ----- when the tables are right -----

  ghost predicate OwnOk(dict: set<Word>, path: map<int, Word>, o: Outputs, s: int)
    requires s in path
  {
    0 <= s < |o.own| && |o.keywords| == |o.runeLens| &&
    if path[s] != [] && path[s] in dict then
      0 < o.own[s] < |o.keywords| && o.keywords[o.own[s]] == path[s] && o.runeLens[o.own[s]] == |path[s]|
    else o.own[s] == 0
  }

  ghost predicate StateOk(dict: set<Word>, path: map<int, Word>, o: Outputs, s: int)
    requires s in path
  {
    |o.own| == |o.outLink| && OwnOk(dict, path, o, s) && LinkOk(dict, path, s, o.outLink[s])
  }

  ghost predicate TablesOk(dict: set<Word>, path: map<int, Word>, o: Outputs) {
    OUT_NONE !in path &&
    forall s {:trigger StateOk(dict, path, o, s)} :: s in path ==> StateOk(dict, path, o, s)
  }

  /** A state carries keywords exactly when its own slot or its link is set. */
  lemma CarriesKeyword(dict: set<Word>, path: map<int, Word>, o: Outputs, s: int)
    requires TablesOk(dict, path, o) && s in path
    ensures 0 <= s < |o.own| == |o.outLink|
    ensures (o.own[s] != 0 || o.outLink[s] != OUT_NONE) <==> KeywordSuffixes(dict, path[s]) != []
  {
    assert StateOk(dict, path, o, s);
  }

  /** Unfolding a state's outputs along its output link. */
  lemma ChainUnfold(dict: set<Word>, path: map<int, Word>, o: Outputs, s: int)
    requires TablesOk(dict, path, o) && s in path
    ensures 0 <= s < |o.own| == |o.outLink| && |o.keywords| == |o.runeLens|
    ensures o.own[s] != 0 ==> 0 < o.own[s] < |o.keywords| && o.runeLens[o.own[s]] == |o.keywords[o.own[s]]|
    ensures o.outLink[s] != OUT_NONE ==> o.outLink[s] in path && |path[o.outLink[s]]| < |path[s]|
    ensures o.own[s] == 0 ==> KeywordSuffixes(dict, path[s]) == (if o.outLink[s] == OUT_NONE then [] else KeywordSuffixes(dict, path[o.outLink[s]]))
    ensures o.own[s] != 0 ==>
              KeywordSuffixes(dict, path[s]) == [o.keywords[o.own[s]]] + (if o.outLink[s] == OUT_NONE then [] else KeywordSuffixes(dict, path[o.outLink[s]]))
  {
    assert StateOk(dict, path, o, s);
    if KeywordSuffixes(dict, Rest(path[s])) != [] { ChainStartsOver(dict, Rest(path[s])); }
  }

  // ----- chain walks -----

  /** `cs` lists the states of an output chain from `state` to its end. */
  ghost predicate IsChain(o: Outputs, state: int, cs: seq<int>) {
    && cs != [] && cs[0] == state
    && |o.own| == |o.outLink| && |o.keywords| == |o.runeLens|
    && (forall i {:trigger ChainLink(o, cs, i)} :: 0 <= i < |cs| ==> ChainLink(o, cs, i))
  }

  /** The `i`th chain state, or the end marker. */
  ghost function At(cs: seq<int>, i: nat): int { if i < |cs| then cs[i] else OUT_NONE }

  ghost predicate ChainLink(o: Outputs, cs: seq<int>, i: nat)
    requires |o.own| == |o.outLink| && |o.keywords| == |o.runeLens|
  {
    var s := At(cs, i);
    && 0 <= s < |o.own| && o.outLink[s] == At(cs, i + 1)
    && (o.own[s] != 0 ==> 0 < o.own[s] < |o.keywords| && o.runeLens[o.own[s]] == |o.keywords[o.own[s]]|)
  }

  /** The keywords on a chain from its `i`th state on. */
  ghost function Items(o: Outputs, cs: seq<int>, i: nat): seq<Word>
    requires i <= |cs| && cs != [] && IsChain(o, cs[0], cs)
    decreases |cs| - i
  {
    if i == |cs| then [] else
    assert ChainLink(o, cs, i);
    if o.own[cs[i]] != 0 then [o.keywords[o.own[cs[i]]]] + Items(o, cs, i + 1) else Items(o, cs, i + 1)
  }

  lemma ItemsAt(o: Outputs, cs: seq<int>, i: nat)
    requires i <= |cs| && cs != [] && IsChain(o, cs[0], cs)
    ensures i == |cs| ==> Items(o, cs, i) == []
    ensures i < |cs| ==>
              && 0 <= cs[i] < |o.own| && (o.own[cs[i]] != 0 ==> 0 < o.own[cs[i]] < |o.keywords|)
              && Items(o, cs, i) == (if o.own[cs[i]] != 0 then [o.keywords[o.own[cs[i]]]] else []) + Items(o, cs, i + 1)
  {
    if i < |cs| { assert ChainLink(o, cs, i); }
  }

  lemma {:induction false} ItemsShift(o: Outputs, cs: seq<int>, s: int, i: nat)
    requires cs != [] && IsChain(o, cs[0], cs) && IsChain(o, s, [s] + cs) && i <= |cs|
    ensures Items(o, [s] + cs, i + 1) == Items(o, cs, i)
    decreases |cs| - i
  {
    if i < |cs| {
      assert ([s] + cs)[i + 1] == cs[i];
      ItemsShift(o, cs, s, i + 1);
    }
  }

  /** Every output chain is finite and holds exactly the keywords that are suffixes
      of the state's path, longest first. */
  lemma {:induction false} ChainOf(dict: set<Word>, path: map<int, Word>, o: Outputs, s: int) returns (cs: seq<int>)
    requires TablesOk(dict, path, o) && s in path
    ensures IsChain(o, s, cs) && Items(o, cs, 0) == KeywordSuffixes(dict, path[s])
    ensures forall i :: 0 <= i < |cs| ==> cs[i] in path
    decreases |path[s]|
  {
    ChainUnfold(dict, path, o, s);
    if o.outLink[s] == OUT_NONE {
      cs := [s];
      assert ChainLink(o, cs, 0);
      assert Items(o, cs, 1) == [];
    } else {
      var tail := ChainOf(dict, path, o, o.outLink[s]);
      cs := [s] + tail;
      ChainExtends(o, s, tail);
      ItemsShift(o, tail, s, 0);
    }
  }

  lemma ChainExtends(o: Outputs, s: int, tail: seq<int>)
    requires tail != [] && IsChain(o, tail[0], tail)
    requires ChainLink(o, [s, tail[0]], 0)
    ensures IsChain(o, s, [s] + tail)
  {
    var cs := [s] + tail;
    forall i | 0 <= i < |cs| ensures ChainLink(o, cs, i) {
      if i > 0 { assert ChainLink(o, tail, i - 1); }
    }
  }

  method AppendChain(o: Outputs, dst: seq<Word>, state: int, ghost dict: set<Word>, ghost path: map<int, Word>)
    returns (r: seq<Word>)
    requires TablesOk(dict, path, o) && state in path
    ensures r == dst + KeywordSuffixes(dict, path[state])
  {
    ghost var cs := ChainOf(dict, path, o, state);
    ghost var i := 0;
    r := dst;
    var s := state;
    while s != OUT_NONE
      invariant i <= |cs| && s == At(cs, i)
      invariant r + Items(o, cs, i) == dst + Items(o, cs, 0)
      decreases |cs| - i
    {
      assert ChainLink(o, cs, i);
      var id := o.own[s];
      if id != 0 { r := r + [o.keywords[id]]; }
      s := o.outLink[s];
      i := i + 1;
    }
  }

  /** Records a match's start offset under its keyword. */
  function IndexOne(dst: map<Word, seq<int>>, m: Match): map<Word, seq<int>> {
    dst[m.keyword := (if m.keyword in dst then dst[m.keyword] else []) + [m.start]]
  }

  function IndexAll(dst: map<Word, seq<int>>, ms: seq<Match>): map<Word, seq<int>>
    decreases ms
  {
    if ms == [] then dst
    else IndexAll(IndexOne(dst, ms[0]), ms[1..])
  }

  lemma {:induction false} IndexAllSplit(dst: map<Word, seq<int>>, a: seq<Match>, b: seq<Match>)
    ensures IndexAll(dst, a + b) == IndexAll(IndexAll(dst, a), b)
    decreases a
  {
    if a == [] {
      assert a + b == b;
    } else {
      assert (a + b)[1..] == a[1..] + b;
      IndexAllSplit(IndexOne(dst, a[0]), a[1..], b);
    }
  }

  method IndexChain(o: Outputs, dst: map<Word, seq<int>>, state: int, end: nat,
                    ghost dict: set<Word>, ghost path: map<int, Word>)
    returns (r: map<Word, seq<int>>)
    requires TablesOk(dict, path, o) && state in path
    ensures r == IndexAll(dst, Spans(KeywordSuffixes(dict, path[state]), end))
  {
    ghost var cs := ChainOf(dict, path, o, state);
    ghost var i := 0;
    r := dst;
    var s := state;
    while s != OUT_NONE
      invariant i <= |cs| && s == At(cs, i)
      invariant IndexAll(r, Spans(Items(o, cs, i), end)) == IndexAll(dst, Spans(Items(o, cs, 0), end))
      decreases |cs| - i
    {
      assert ChainLink(o, cs, i);
      IndexStep(o, cs, i, r, end);
      var id := o.own[s];
      if id != 0 {
        var kw := o.keywords[id];
        r := r[kw := (if kw in r then r[kw] else []) + [end - o.runeLens[id]]];
      }
      s := o.outLink[s];
      i := i + 1;
    }
  }

  lemma IndexStep(o: Outputs, cs: seq<int>, i: nat, r: map<Word, seq<int>>, end: nat)
    requires i < |cs| && IsChain(o, cs[0], cs) && ChainLink(o, cs, i)
    ensures var all, later := Spans(Items(o, cs, i), end), Spans(Items(o, cs, i + 1), end);
            if o.own[cs[i]] == 0 then all == later
            else
              var m := Match(o.keywords[o.own[cs[i]]], end - o.runeLens[o.own[cs[i]]], end);
              IndexAll(r, all) == IndexAll(IndexOne(r, m), later)
  {
    if o.own[cs[i]] != 0 {
      var k, later := o.keywords[o.own[cs[i]]], Items(o, cs, i + 1);
      SpansCons(k, later, end);
      var ms := [Match(k, end - |k|, end)] + Spans(later, end);
      assert ms[1..] == Spans(later, end);
    }
  }

  lemma EmitStep(o: Outputs, cs: seq<int>, i: nat, r: seq<Match>, end: nat, accept: seq<Match> -> bool)
    requires i < |cs| && IsChain(o, cs[0], cs) && ChainLink(o, cs, i)
    ensures var all, later := Spans(Items(o, cs, i), end), Spans(Items(o, cs, i + 1), end);
            if o.own[cs[i]] == 0 then all == later
            else
              var sent := r + [Match(o.keywords[o.own[cs[i]]], end - o.runeLens[o.own[cs[i]]], end)];
              && DeliveredFrom(r, all, accept) == (if accept(sent) then DeliveredFrom(sent, later, accept) else sent)
              && (Stops(r, all, accept) <==> !accept(sent) || Stops(sent, later, accept))
  {
    if o.own[cs[i]] != 0 {
      var k, later := o.keywords[o.own[cs[i]]], Items(o, cs, i + 1);
      SpansCons(k, later, end);
      DeliveredCons(r, Match(k, end - |k|, end), Spans(later, end), accept);
    }
  }

  /** Hands the chain's keywords with their spans to a callback; `more` is false
      when the callback asked to stop. */
  method EmitChain(o: Outputs, sent: seq<Match>, state: int, end: nat, accept: seq<Match> -> bool,
                   ghost dict: set<Word>, ghost path: map<int, Word>)
    returns (r: seq<Match>, more: bool)
    requires TablesOk(dict, path, o) && state in path
    ensures r == DeliveredFrom(sent, Spans(KeywordSuffixes(dict, path[state]), end), accept)
    ensures more == !Stops(sent, Spans(KeywordSuffixes(dict, path[state]), end), accept)
  {
    ghost var cs := ChainOf(dict, path, o, state);
    ghost var i := 0;
    r := sent;
    var s := state;
    while s != OUT_NONE
      invariant i <= |cs| && s == At(cs, i)
      invariant DeliveredFrom(r, Spans(Items(o, cs, i), end), accept)
             == DeliveredFrom(sent, Spans(Items(o, cs, 0), end), accept)
      invariant Stops(r, Spans(Items(o, cs, i), end), accept) == Stops(sent, Spans(Items(o, cs, 0), end), accept)
      decreases |cs| - i
    {
      assert ChainLink(o, cs, i);
      EmitStep(o, cs, i, r, end, accept);
      var id := o.own[s];
      if id != 0 {
        r := r + [Match(o.keywords[id], end - o.runeLens[id], end)];
        if !accept(r) { return r, false; }
      }
      s := o.outLink[s];
      i := i + 1;
    }
    more := true;
  }

  // ----- collecting the set of matched keywords -----

  /** `ks` without later duplicates. */
  function Dedup(ks: seq<Word>): seq<Word> {
    if ks == [] then []
    else
      var front, last := Dedup(ks[..|ks| - 1]), ks[|ks| - 1];
      if last in front then front else front + [last]
  }

  lemma {:induction false} DedupMembers(ks: seq<Word>)
    ensures forall k :: k in Dedup(ks) <==> k in ks
    ensures forall i, j :: 0 <= i < j < |Dedup(ks)| ==> Dedup(ks)[i] != Dedup(ks)[j]
  {
    if ks != [] {
      DedupMembers(ks[..|ks| - 1]);
      assert ks == ks[..|ks| - 1] + [ks[|ks| - 1]];
    }
  }

  /** `a` is first met before `b`. */
  ghost predicate MetBefore(ks: seq<Word>, a: Word, b: Word) {
    exists i {:trigger ks[i]} :: 0 <= i < |ks| && ks[i] == a && b !in ks[..i + 1]
  }

  /** Keywords stay in the order in which they are first met. */
  lemma {:induction false} DedupOrder(ks: seq<Word>, i: nat, j: nat)
    requires i < j < |Dedup(ks)|
    ensures MetBefore(ks, Dedup(ks)[i], Dedup(ks)[j])
  {
    var n := |ks| - 1;
    var front := Dedup(ks[..n]);
    DedupMembers(ks[..n]);
    if j < |front| {
      DedupOrder(ks[..n], i, j);
      var x :| 0 <= x < n && ks[..n][x] == front[i] && front[j] !in ks[..n][..x + 1];
      assert ks[..n][..x + 1] == ks[..x + 1] && ks[x] == front[i];
    } else {
      assert front[i] in ks[..n];
      var x :| 0 <= x < n && ks[..n][x] == front[i];
      assert ks[x] == front[i];
      forall y | 0 <= y < x + 1 ensures ks[y] != ks[n] { assert ks[..n][y] == ks[y]; }
    }
  }

  lemma DedupSnoc(ks: seq<Word>, k: Word)
    ensures Dedup(ks + [k]) == if k in ks then Dedup(ks) else Dedup(ks) + [k]
  {
    assert (ks + [k])[..|ks|] == ks;
    DedupMembers(ks);
  }

  lemma {:induction false} DedupKnown(ks: seq<Word>, more: seq<Word>)
    requires forall k :: k in more ==> k in ks
    ensures Dedup(ks + more) == Dedup(ks)
    decreases more
  {
    if more == [] {
      assert ks + more == ks;
    } else {
      var n := |more| - 1;
      assert ks + more == (ks + more[..n]) + [more[n]];
      DedupKnown(ks, more[..n]);
      DedupSnoc(ks + more[..n], more[n]);
    }
  }

  /** The seen ids are exactly those of the reported keywords. */
  ghost predicate KeywordsKnown(o: Outputs, dict: set<Word>, path: map<int, Word>, ks: seq<Word>, ids: iset<int>)
  {
    forall s {:trigger StateOk(dict, path, o, s)} :: s in path && StateOk(dict, path, o, s) && o.own[s] != 0 ==>
      (o.own[s] in ids <==> path[s] in ks)
  }

  /** Everything a seen state reports has been reported. */
  ghost predicate StatesKnown(dict: set<Word>, path: map<int, Word>, ks: seq<Word>, states: iset<int>) {
    forall s :: s in path && s in states ==> forall k :: k in KeywordSuffixes(dict, path[s]) ==> k in ks
  }

  lemma KeywordLearned(o: Outputs, dict: set<Word>, path: map<int, Word>, ks: seq<Word>, ids: iset<int>, s: int)
    requires KeywordsKnown(o, dict, path, ks, ids) && Injective(path) && TablesOk(dict, path, o)
    requires s in path && 0 <= s < |o.own| && o.own[s] != 0
    ensures StateOk(dict, path, o, s) && o.keywords[o.own[s]] == path[s]
    ensures o.own[s] in ids <==> path[s] in ks
    ensures KeywordsKnown(o, dict, path, ks + [path[s]], ids + iset{o.own[s]})
  {
    assert StateOk(dict, path, o, s);
    forall t | t in path && StateOk(dict, path, o, t) && o.own[t] != 0
      ensures o.own[t] in ids + iset{o.own[s]} <==> path[t] in ks + [path[s]]
    {
      assert o.own[t] == o.own[s] ==> path[t] == path[s];
      assert path[t] == path[s] ==> t == s;
    }
  }

  lemma StateLearned(dict: set<Word>, path: map<int, Word>, ks: seq<Word>, more: seq<Word>, states: iset<int>, s: int)
    requires StatesKnown(dict, path, ks, states - iset{s}) && s in path
    requires more == KeywordSuffixes(dict, path[s])
    ensures StatesKnown(dict, path, ks + more, states)
  {
    forall t | t in path && t in states ensures forall k :: k in KeywordSuffixes(dict, path[t]) ==> k in ks + more {
      assert t != s ==> t in states - iset{s};
    }
  }

  /** Folds matched states' output chains into the set of matched keywords, in
      first-match order.  Both deduplication layers are bit tables, or hash maps once
      the tables would reach `dedupHashMin` entries.  `reported` is the list Find
      would have produced for the states collected so far. */
  class SetCollector {
    var out: seq<Word>
    var started: bool
    var hashed: bool
    var seen: seq<Bits.Bits64>
    var seenStates: seq<Bits.Bits64>
    var seenKw: set<int>
    var seenSt: set<int>
    ghost var reported: seq<Word>

    constructor ()
      ensures out == [] && !started && reported == []
    {
      out, started, hashed, seen, seenStates, seenKw, seenSt, reported := [], false, false, [], [], {}, {}, [];
    }

    ghost predicate Sized(o: Outputs)
      reads this
    {
      started && !hashed ==> |seen| == Bits.WordsFor(|o.keywords|) && |seenStates| == Bits.WordsFor(|o.own|)
    }

    ghost function SeenKeywords(): iset<int>
      reads this
    {
      if hashed then iset id | id in seenKw
      else iset id | 0 <= id && id / 64 < |seen| && Bits.Test(seen, id)
    }

    ghost function SeenStates(): iset<int>
      reads this
    {
      if hashed then iset s | s in seenSt
      else iset s | 0 <= s && s / 64 < |seenStates| && Bits.Test(seenStates, s)
    }

    ghost predicate Valid(o: Outputs, dict: set<Word>, path: map<int, Word>)
      requires TablesOk(dict, path, o)
      reads this
    {
      && out == Dedup(reported)
      && Sized(o)
      && (!started ==> reported == [])
      && (started ==> KeywordsKnown(o, dict, path, reported, SeenKeywords()))
      && (started ==> StatesKnown(dict, path, reported, SeenStates()))
    }

    lemma Fresh(o: Outputs, dict: set<Word>, path: map<int, Word>)
      requires TablesOk(dict, path, o) && out == [] && !started && reported == []
      ensures Valid(o, dict, path)
    {
    }

    lemma Result(o: Outputs, dict: set<Word>, path: map<int, Word>)
      requires TablesOk(dict, path, o) && Valid(o, dict, path)
      ensures out == Dedup(reported)
    {
    }

    /** Records a landing on `state` and reports whether it is new. */
    method MarkState(o: Outputs, state: int) returns (isNew: bool)
      requires started && Sized(o) && 0 <= state < |o.own|
      modifies `seenStates, `seenSt
      ensures Sized(o) && isNew == (state !in old(SeenStates()))
      ensures SeenStates() == old(SeenStates()) + iset{state}
    {
      if !hashed {
        if Bits.Test(seenStates, state) { return false; }
        seenStates := Bits.Set(seenStates, state);
        return true;
      }
      if state in seenSt { return false; }
      seenSt := seenSt + {state};
      return true;
    }

    /** Records keyword `id` and reports whether it is new. */
    method MarkKeyword(o: Outputs, id: int) returns (isNew: bool)
      requires started && Sized(o) && 0 <= id < |o.keywords|
      modifies `seen, `seenKw
      ensures Sized(o) && isNew == (id !in old(SeenKeywords()))
      ensures SeenKeywords() == old(SeenKeywords()) + iset{id}
    {
      if !hashed {
        if Bits.Test(seen, id) { return false; }
        seen := Bits.Set(seen, id);
        return true;
      }
      if id in seenKw { return false; }
      seenKw := seenKw + {id};
      return true;
    }

    method Start(o: Outputs, dedupHashMin: int)
      requires !started
      modifies this
      ensures started && Sized(o) && out == old(out) && reported == old(reported)
      ensures SeenKeywords() == iset{} && SeenStates() == iset{}
    {
      hashed := |o.keywords| + |o.own| >= dedupHashMin;
      seenKw, seenSt, started := {}, {}, true;
      if !hashed {
        seen := Bits.Empty(Bits.WordsFor(|o.keywords|));
        seenStates := Bits.Empty(Bits.WordsFor(|o.own|));
      }
    }

    /** Appends the keyword ending at `s` unless it is already among `ks`. */
    method Report(o: Outputs, s: int, ghost ks: seq<Word>, ghost dict: set<Word>, ghost path: map<int, Word>)
      requires TablesOk(dict, path, o) && Injective(path) && s in path
      requires 0 <= s < |o.own| && 0 < o.own[s] < |o.keywords|
      requires started && Sized(o) && out == Dedup(ks) && KeywordsKnown(o, dict, path, ks, SeenKeywords())
      modifies `out, `seen, `seenKw
      ensures Sized(o) && out == Dedup(ks + [o.keywords[o.own[s]]])
      ensures KeywordsKnown(o, dict, path, ks + [o.keywords[o.own[s]]], SeenKeywords())
    {
      DedupSnoc(ks, o.keywords[o.own[s]]);
      KeywordLearned(o, dict, path, ks, SeenKeywords(), s);
      var isNewKeyword := MarkKeyword(o, o.own[s]);
      if isNewKeyword { out := out + [o.keywords[o.own[s]]]; }
    }

    /** Appends the chain's keywords that are not yet among `before`. */
    method WalkChain(o: Outputs, state: int, ghost before: seq<Word>, ghost dict: set<Word>, ghost path: map<int, Word>)
      requires TablesOk(dict, path, o) && Injective(path) && state in path
      requires started && Sized(o) && out == Dedup(before) && KeywordsKnown(o, dict, path, before, SeenKeywords())
      modifies `out, `seen, `seenKw
      ensures Sized(o) && out == Dedup(before + KeywordSuffixes(dict, path[state]))
      ensures KeywordsKnown(o, dict, path, before + KeywordSuffixes(dict, path[state]), SeenKeywords())
    {
      hide KeywordsKnown, Dedup, TablesOk, Injective, KeywordSuffixes, Items, SeenKeywords;
      ghost var cs := ChainOf(dict, path, o, state);
      ghost var i := 0;
      ghost var ks := before;
      var s := state;
      while s != OUT_NONE
        invariant i <= |cs| && s == At(cs, i)
        invariant Sized(o) && ks + Items(o, cs, i) == before + Items(o, cs, 0)
        invariant out == Dedup(ks) && KeywordsKnown(o, dict, path, ks, SeenKeywords())
        decreases |cs| - i
      {
        assert ChainLink(o, cs, i);
        ItemsAt(o, cs, i);
        var id := o.own[s];
        if id != 0 {
          assert s in path;
          Report(o, s, ks, dict, path);
          ks := ks + [o.keywords[id]];
        }
        s := o.outLink[s];
        i := i + 1;
      }
      ItemsAt(o, cs, i);
      assert ks == before + Items(o, cs, 0);
    }

    /** Adds the unseen keywords on `state`'s output chain.  Skipping a visited state
        loses nothing: the result is what deduplicating every report would give. */
    method CollectChain(o: Outputs, state: int, dedupHashMin: int, ghost dict: set<Word>, ghost path: map<int, Word>)
      requires TablesOk(dict, path, o) && Injective(path) && state in path && Valid(o, dict, path)
      modifies this
      ensures Valid(o, dict, path)
      ensures reported == old(reported) + KeywordSuffixes(dict, path[state])
    {
      CarriesKeyword(dict, path, o, state);
      ghost var all := KeywordSuffixes(dict, path[state]);
      if o.own[state] == 0 && o.outLink[state] == OUT_NONE { return; }
      if !started { Start(o, dedupHashMin); }
      ghost var before := reported;
      var isNew := MarkState(o, state);
      reported := before + all;
      if !isNew {
        DedupKnown(before, all);
        StateLearned(dict, path, before, all, SeenStates(), state);
        return;
      }
      WalkChain(o, state, before, dict, path);
      StateLearned(dict, path, before, all, SeenStates(), state);
    }
  }
}
